/** Applying one message: checking it, buying its gas, running it, and settling gas and fees.
    Amounts of wei are 256-bit machine integers here; that none of them wraps is proved. */
module StateTransitions {
  import opened Basics
  import opened Headers
  import opened Accounts
  import opened GasPools
  import opened Messages

  const REFUND_QUOTIENT := 2
  const REFUND_QUOTIENT_EIP3529 := 5
  const MAX_INIT_CODE_SIZE := 49152
  const ZERO_ADDRESS := Addr(0)
  const SYSTEM_ADDRESS := Addr(0xfffffffffffffffffffffffffffffffffffffffe)

  datatype Rules = Rules(homestead: bool, istanbul: bool, london: bool, shanghai: bool, cancun: bool, nano: bool,
                         parlia: bool)

  datatype Context = Context(
    rules: Rules,
    baseFee: Option<nat>,
    blobBaseFee: nat,
    coinbase: Addr,
    chainId: nat,
    blackList: set<Addr>)

  datatype Error =
    | NonceTooHigh | NonceTooLow | NonceMax | SenderNoEOA
    | FeeCapVeryHigh | TipVeryHigh | TipAboveFeeCap | FeeCapTooLow
    | BlobTxCreate | MissingBlobHashes | BlobHashVersion | BlobFeeCapTooLow
    | SetCodeTxCreate | EmptyAuthList
    | InsufficientFunds | GasLimitReached
    | Blacklisted | GasUintOverflow | IntrinsicGasTooLow
    | InsufficientFundsForTransfer | MaxInitCodeSizeExceeded

  /* The virtual machine, seen from outside */

  // It sees the message, the context of the block, the gas given and the world.
  datatype Effect = Effect(world: World, gasLeft: nat, failed: bool, burnt: nat)
  type Machine = (Message, Context, nat, World) -> Effect

  // It spends only the gas it is given, makes no wei (self-destruction may burn some), and no
  // account that has signed something becomes a contract or has its nonce lowered.
  ghost predicate Law(w: World, gas: nat, e: Effect) {
    e.gasLeft <= gas && Sized(e.world) && Total(e.world) + e.burnt == Total(w) && Forward(w, e.world)
  }

  ghost predicate Lawful(run: Machine) {
    forall m: Message, ctx: Context, gas: nat, w: World :: Sized(w) ==> Law(w, gas, run(m, ctx, gas, w))
  }

  // One run of a message: the world it started in, the gas it was given and what it did.
  datatype Ran = Ran(before: World, given: nat, effect: Effect)

  ghost predicate RanBy(run: Machine, m: Message, ctx: Context, t: Ran) {
    t.effect == run(m, ctx, t.given, t.before) && t.effect.gasLeft <= t.given
  }

  /* What a message may cost, and does */

  ghost function BlobFee(m: Message, ctx: Context, price: nat): nat {
    if ctx.rules.cancun then Cost(BlobGas(m), price) else 0
  }

  // What the sender must be able to pay at most.
  ghost function MaxCost(m: Message, ctx: Context): nat {
    Cost(m.gasLimit, m.gasFeeCap) + m.value + BlobFee(m, ctx, m.blobGasFeeCap)
  }

  // What the sender pays up front.
  ghost function Prepaid(m: Message, ctx: Context): nat {
    Cost(m.gasLimit, m.gasPrice) + BlobFee(m, ctx, ctx.blobBaseFee)
  }

  // The caps lie above the fees of the block.
  ghost predicate Capped(m: Message, ctx: Context) {
    && (ctx.rules.london ==> ctx.baseFee.Some? && m.gasFeeCap >= ctx.baseFee.value)
    && (ctx.rules.cancun && BlobGas(m) > 0 ==> m.blobGasFeeCap >= ctx.blobBaseFee)
  }

  // The up-front payment and the value are within what was checked.
  lemma {:induction false} CostCovers(m: Message, ctx: Context)
    requires m.gasPrice <= m.gasFeeCap && Capped(m, ctx)
    ensures Prepaid(m, ctx) + m.value <= MaxCost(m, ctx) && m.value <= MaxCost(m, ctx)
  {
    CostMonotone(m.gasLimit, m.gasPrice, m.gasFeeCap);
    if ctx.rules.cancun && BlobGas(m) > 0 {
      CostMonotone(BlobGas(m), ctx.blobBaseFee, m.blobGasFeeCap);
    }
  }

  // Exactly the messages that pass the checks.
  ghost predicate Acceptable(m: Message, ctx: Context, w: World, pool: nat) {
    && Get(w, m.from).nonce == m.nonce < TWO_64 - 1
    && External(w, m.from)
    && (ctx.rules.london ==>
          m.gasFeeCap < TWO_256 && m.gasTipCap <= m.gasFeeCap && BaseFee(ctx) <= m.gasFeeCap)
    && (m.blobVersions.Some? ==>
          && m.to.Some? && m.blobVersions.value != []
          && forall i :: 0 <= i < |m.blobVersions.value| ==> m.blobVersions.value[i] == BLOB_HASH_VERSION)
    && (ctx.rules.cancun && BlobGas(m) > 0 ==> ctx.blobBaseFee <= m.blobGasFeeCap)
    && (m.authList.Some? ==> m.to.Some? && m.authList.value != [])
    && MaxCost(m, ctx) < TWO_256 && MaxCost(m, ctx) <= Get(w, m.from).balance
    && m.gasLimit <= pool
  }

  // What is missing from the sum of all balances after a message: the base fee of its gas and,
  // outside Parlia, the blob fee.
  ghost function Loss(m: Message, ctx: Context, used: nat): nat {
    (if ctx.rules.london then Cost(used, BaseFee(ctx)) else 0)
    + if ctx.rules.parlia then 0 else BlobFee(m, ctx, ctx.blobBaseFee)
  }

  function Quotient(ctx: Context): nat {
    if ctx.rules.london then REFUND_QUOTIENT_EIP3529 else REFUND_QUOTIENT
  }

  // At least half of the gross gas, after London four fifths of it, is paid for.
  predicate Economical(used: nat, gross: nat, ctx: Context) {
    if ctx.rules.london then 5 * used >= 4 * gross else 2 * used >= gross
  }

  lemma {:induction false} RefundCap(gross: nat, ctx: Context, refund: nat)
    requires refund <= gross / Quotient(ctx)
    ensures refund <= gross && Economical(gross - refund, gross, ctx)
  {
    if ctx.rules.london {
      assert refund <= gross / 5;
    } else {
      assert refund <= gross / 2;
    }
  }

  function BaseFee(ctx: Context): nat {
    if ctx.baseFee.Some? then ctx.baseFee.value else 0
  }

  function Auths(m: Message): Option<nat> {
    if m.authList.Some? then Some(|m.authList.value|) else None
  }

  ghost function PlainGas(m: Message, ctx: Context): nat
    requires |m.data| < TWO_64
  {
    BaseGas(m.to.None?, ctx.rules.homestead) + DataGas(m.data, m.to.None?, ctx.rules.istanbul, ctx.rules.shanghai)
  }

  ghost function Intrinsic(m: Message, ctx: Context): nat
    requires |m.data| < TWO_64
  {
    Add64(PlainGas(m, ctx), ListGas(m.accessList, Auths(m)))
  }

  ghost predicate IntrinsicCovered(m: Message, ctx: Context, gas: nat)
    requires |m.data| < TWO_64
  {
    PlainGas(m, ctx) < TWO_64 && Intrinsic(m, ctx) <= gas
  }

  // Exactly the messages that are applied.
  ghost predicate Executable(m: Message, ctx: Context, w: World, pool: nat)
    requires |m.data| < TWO_64
  {
    && Acceptable(m, ctx, w, pool)
    && !(ctx.rules.nano && (m.from in ctx.blackList || (m.to.Some? && m.to.value in ctx.blackList)))
    && IntrinsicCovered(m, ctx, m.gasLimit)
    && !(ctx.rules.shanghai && m.to.None? && |m.data| > MAX_INIT_CODE_SIZE)
  }

  // What an error says about the message and the state it was tried in.
  ghost predicate Explains(e: Error, m: Message, ctx: Context, w: World, pool: nat)
    requires |m.data| < TWO_64
  {
    match e
    case NonceTooHigh => m.nonce > Get(w, m.from).nonce
    case NonceTooLow => m.nonce < Get(w, m.from).nonce
    case NonceMax => m.nonce == Get(w, m.from).nonce == TWO_64 - 1
    case SenderNoEOA => Get(w, m.from).code.Contract?
    case FeeCapVeryHigh => ctx.rules.london && m.gasFeeCap >= TWO_256
    case TipVeryHigh => ctx.rules.london && m.gasTipCap >= TWO_256
    case TipAboveFeeCap => ctx.rules.london && m.gasTipCap > m.gasFeeCap
    case FeeCapTooLow => ctx.rules.london && m.gasFeeCap < BaseFee(ctx)
    case BlobTxCreate => m.blobVersions.Some? && m.to.None?
    case MissingBlobHashes => m.blobVersions == Some([])
    case BlobHashVersion =>
      m.blobVersions.Some? && exists i :: 0 <= i < |m.blobVersions.value| && m.blobVersions.value[i] != 1
    case BlobFeeCapTooLow => ctx.rules.cancun && BlobGas(m) > 0 && m.blobGasFeeCap < ctx.blobBaseFee
    case SetCodeTxCreate => m.authList.Some? && m.to.None?
    case EmptyAuthList => m.authList == Some([])
    case InsufficientFunds => MaxCost(m, ctx) >= TWO_256 || MaxCost(m, ctx) > Get(w, m.from).balance
    case GasLimitReached => m.gasLimit > pool
    case Blacklisted => ctx.rules.nano && (m.from in ctx.blackList || (m.to.Some? && m.to.value in ctx.blackList))
    case GasUintOverflow => PlainGas(m, ctx) >= TWO_64
    case IntrinsicGasTooLow => PlainGas(m, ctx) < TWO_64 && m.gasLimit < Intrinsic(m, ctx)
    case InsufficientFundsForTransfer => false
    case MaxInitCodeSizeExceeded => ctx.rules.shanghai && m.to.None? && |m.data| > MAX_INIT_CODE_SIZE
  }

  // What neither nonce nor balance nor pool makes up for: a blacklisted party, blobs or authorizations
  // without a recipient or in name only, a blob of another version, a tip above the cap since London,
  // and code for a creation beyond 48 KiB since Shanghai.
  lemma {:induction false} RefusedAnyway(m: Message, ctx: Context, w: World, pool: nat)
    requires |m.data| < TWO_64
    ensures ctx.rules.nano && (m.from in ctx.blackList || (m.to.Some? && m.to.value in ctx.blackList)) ==>
              !Executable(m, ctx, w, pool)
    ensures (m.blobVersions.Some? || m.authList.Some?) && m.to.None? ==> !Executable(m, ctx, w, pool)
    ensures m.blobVersions == Some([]) || m.authList == Some([]) ==> !Executable(m, ctx, w, pool)
    ensures m.blobVersions.Some? && (exists i :: 0 <= i < |m.blobVersions.value| && m.blobVersions.value[i] != 1) ==>
              !Executable(m, ctx, w, pool)
    ensures ctx.rules.london && m.gasTipCap > m.gasFeeCap ==> !Executable(m, ctx, w, pool)
    ensures ctx.rules.shanghai && m.to.None? && |m.data| > 48 * 1024 ==> !Executable(m, ctx, w, pool)
  {
  }

  // The tips for so much gas.
  ghost function Tips(m: Message, ctx: Context, used: nat): nat {
    var tip := EffectiveTip(m, ctx.rules.london, BaseFee(ctx));
    if tip >= 0 then Cost(used, tip) else 0
  }

  // The up-front payment comes apart into what is given back, the tips, the fees that are paid
  // out and the loss.
  lemma {:induction false} FeesFit(m: Message, ctx: Context, used: nat, left: nat)
    requires Priced(m, ctx.baseFee) && Capped(m, ctx) && used + left == m.gasLimit
    ensures var blobFee := BlobFee(m, ctx, ctx.blobBaseFee);
            && EffectiveTip(m, ctx.rules.london, BaseFee(ctx)) >= 0
            && Cost(left, m.gasPrice) + Tips(m, ctx, used) + (if ctx.rules.parlia then blobFee else 0)
               + Loss(m, ctx, used) == Prepaid(m, ctx)
            && Cost(left, m.gasPrice) + Tips(m, ctx, used) + blobFee <= Prepaid(m, ctx)
  {
    CostAdd(left, used, m.gasPrice);
    if ctx.rules.london {
      TipAndBaseFee(m, BaseFee(ctx));
      CostSplit(used, EffectiveTip(m, true, BaseFee(ctx)), BaseFee(ctx));
    }
  }

  // In figures: what is paid up front and what must be there, blobs included since Cancun.
  lemma {:induction false} CostsAre(m: Message, ctx: Context)
    ensures var blobs := if ctx.rules.cancun && m.blobVersions.Some? then |m.blobVersions.value| else 0;
            && Prepaid(m, ctx) == m.gasLimit * m.gasPrice + 131072 * blobs * ctx.blobBaseFee
            && MaxCost(m, ctx) == m.gasLimit * m.gasFeeCap + m.value + 131072 * blobs * m.blobGasFeeCap
  {
    CostIsProduct(m.gasLimit, m.gasPrice);
    CostIsProduct(m.gasLimit, m.gasFeeCap);
    CostIsProduct(BlobGas(m), ctx.blobBaseFee);
    CostIsProduct(BlobGas(m), m.blobGasFeeCap);
  }

  // The tips are what the price leaves over the base fee, since London, and the loss is that base fee
  // and, outside Parlia, the blob fee.
  lemma {:induction false} FeesAre(m: Message, ctx: Context, used: nat)
    requires Priced(m, ctx.baseFee) && Capped(m, ctx)
    ensures var blobs := if ctx.rules.cancun && m.blobVersions.Some? then |m.blobVersions.value| else 0;
            var baseFee := if ctx.rules.london then ctx.baseFee.value else 0;
            && baseFee <= m.gasPrice && Tips(m, ctx, used) == used * (m.gasPrice - baseFee)
            && Loss(m, ctx, used) == used * baseFee + if ctx.rules.parlia then 0 else 131072 * blobs * ctx.blobBaseFee
  {
    if ctx.rules.london {
      TipAndBaseFee(m, BaseFee(ctx));
      CostIsProduct(used, BaseFee(ctx));
    }
    CostIsProduct(used, EffectiveTip(m, ctx.rules.london, BaseFee(ctx)));
    CostIsProduct(BlobGas(m), ctx.blobBaseFee);
  }

  // What a message is charged before it runs, by its own fields and the rules of the block.
  lemma {:induction false} IntrinsicIs(m: Message, ctx: Context)
    requires |m.data| < TWO_64
    ensures var base := if m.to.None? && ctx.rules.homestead then 53000 else 21000;
            var data := DataGas(m.data, m.to.None?, ctx.rules.istanbul, ctx.rules.shanghai);
            var list := if m.accessList.Some? then m.accessList.value else AccessList(0, 0);
            var auths := if m.authList.Some? then |m.authList.value| else 0;
            var sum := base + data + 2400 * list.addresses + 1900 * list.storageKeys + 25000 * auths;
            Intrinsic(m, ctx) == sum % TWO_64
  {
  }

  // The refund: what the counter holds, up to a share of the gross gas.
  function Refund(gross: nat, ctx: Context, counter: nat): nat {
    Min(gross / Quotient(ctx), counter)
  }

  // It is the most that the counter holds and that leaves four fifths of the gross gas, before London
  // half of it, to be paid for.
  lemma {:induction false} RefundIsLargest(gross: nat, ctx: Context, counter: nat)
    ensures var r, q := Refund(gross, ctx, counter), if ctx.rules.london then 5 else 2;
            r <= counter && q * r <= gross && (r == counter || q * (r + 1) > gross)
  {
  }

  // The gas used is the gross gas less the refund, and not less than its due share.
  ghost predicate GasSettled(r: Result, gross: nat, counter: nat, ctx: Context) {
    && r.Done? && r.refundedGas == Refund(gross, ctx, counter)
    && r.usedGas + r.refundedGas == gross && Economical(r.usedGas, gross, ctx)
  }

  /* Authorizations */

  function AuthorizationOk(auth: Authorization, chainId: nat, w: World): bool {
    && (auth.chainId == 0 || auth.chainId == chainId)
    && Add64(auth.nonce, 1) >= auth.nonce
    && auth.authority.Some?
    && External(w, auth.authority.value)
    && Get(w, auth.authority.value).nonce == auth.nonce
  }

  // The delegation, or no code when the target is the zero address.
  function Installed(auth: Authorization): Code {
    if auth.target == ZERO_ADDRESS then NoCode else Delegation(auth.target)
  }

  function Bumped(w: World, a: Addr): World {
    Put(w, a, Get(w, a).(nonce := Get(w, a).nonce + 1))
  }

  // Under Parlia the system account takes tips and blob fee, elsewhere the coinbase the tips.
  ghost function FeesPaid(m: Message, ctx: Context, w: World, fee: nat): World {
    if ctx.rules.parlia then Credited(w, SYSTEM_ADDRESS, fee + BlobFee(m, ctx, ctx.blobBaseFee))
    else Credited(w, ctx.coinbase, fee)
  }

  // What settling makes of the world the run left: the sender gets the left-over gas back at the
  // price paid, and the fees are paid out.
  ghost predicate IsSettled(m: Message, ctx: Context, w: World, used: nat, left: nat, w': World) {
    && used + left == m.gasLimit
    && w' == FeesPaid(m, ctx, Credited(w, m.from, Cost(left, m.gasPrice)), Tips(m, ctx, used))
  }

  // The world with the authority's nonce bumped and its code replaced.
  ghost function Authorized(w: World, auth: Authorization): World
    requires auth.authority.Some?
  {
    var a := auth.authority.value;
    Put(w, a, Account(Get(w, a).balance, auth.nonce + 1, Installed(auth)))
      .(refund := w.refund + if a in w.accounts then CALL_NEW_ACCOUNT_GAS - TX_AUTH_TUPLE_GAS else 0)
  }

  // One authorization: applied and its nonce spent if it is in order, skipped otherwise.
  ghost function AuthStep(w: World, auth: Authorization, chainId: nat): World {
    if AuthorizationOk(auth, chainId, w) then Authorized(w, auth) else w
  }

  ghost function AuthSpend(w: World, auth: Authorization, chainId: nat): seq<Spend> {
    if AuthorizationOk(auth, chainId, w) then [Spend(auth.authority.value, auth.nonce)] else []
  }

  // The authorizations of a message; a creation has none.
  function AuthsOf(m: Message): seq<Authorization> {
    if m.to.Some? && m.authList.Some? then m.authList.value else []
  }

  ghost function AfterAuths(auths: seq<Authorization>, chainId: nat, w: World): World {
    if auths == [] then w
    else AuthStep(AfterAuths(auths[..|auths| - 1], chainId, w), auths[|auths| - 1], chainId)
  }

  ghost function AuthSpends(auths: seq<Authorization>, chainId: nat, w: World): seq<Spend> {
    if auths == [] then []
    else
      var before := auths[..|auths| - 1];
      AuthSpends(before, chainId, w) + AuthSpend(AfterAuths(before, chainId, w), auths[|auths| - 1], chainId)
  }

  ghost predicate Counts(w: World, auth: Authorization, chainId: nat) {
    && auth.authority.Some? && auth.chainId in {0, chainId} && auth.nonce + 1 < TWO_64
    && var x := Get(w, auth.authority.value);
       x.nonce == auth.nonce && (x.code == NoCode || x.code.Delegation?)
  }

  function SpendOf(auth: Authorization): Spend {
    Spend(if auth.authority.Some? then auth.authority.value else ZERO_ADDRESS, auth.nonce)
  }

  // An authorization counts if and only if it was signed, for this chain or for any, by an account
  // that is no contract, with the nonce that the account stands at, short of the last one.
  lemma {:induction false} AuthorizationCounts(w: World, auth: Authorization, chainId: nat)
    requires auth.nonce < TWO_64
    ensures AuthSpend(w, auth, chainId) == [] || AuthSpend(w, auth, chainId) == [SpendOf(auth)]
    ensures AuthSpend(w, auth, chainId) != [] <==> Counts(w, auth, chainId)
    ensures !Counts(w, auth, chainId) ==> AuthStep(w, auth, chainId) == w
  {
  }

  // One that counts leaves its account delegated to the target, or with no code for the zero address,
  // its nonce one up and its balance as it was, and no other account changed. The refund counter
  // rises exactly for an account that existed.
  lemma {:induction false} AuthorizationLeaves(w: World, auth: Authorization, chainId: nat, b: Addr)
    requires auth.nonce < TWO_64 && Counts(w, auth, chainId)
    ensures var w', a := AuthStep(w, auth, chainId), auth.authority.value;
            && a in w'.accounts && w'.rest == w.rest
            && Get(w', a).nonce == Get(w, a).nonce + 1 && Get(w', a).balance == Get(w, a).balance
            && (auth.target == Addr(0) ==> Get(w', a).code == NoCode)
            && (auth.target != Addr(0) ==> Get(w', a).code == Delegation(auth.target))
            && (b != a ==> Get(w', b) == Get(w, b) && (b in w'.accounts <==> b in w.accounts))
            && w'.refund - w.refund == if a in w.accounts then 12500 else 0
  {
  }

  // Every signature that a list spends is that of one of its authorizations which counts in the world
  // that those before it leave.
  lemma {:induction false} SpendsAreAuthorized(auths: seq<Authorization>, chainId: nat, w: World, k: nat)
    returns (j: nat)
    requires k < |AuthSpends(auths, chainId, w)|
    requires forall i :: 0 <= i < |auths| ==> auths[i].nonce < TWO_64
    ensures j < |auths| && AuthSpends(auths, chainId, w)[k] == SpendOf(auths[j])
    ensures Counts(AfterAuths(auths[..j], chainId, w), auths[j], chainId)
  {
    var last := |auths| - 1;
    var before := auths[..last];
    if k < |AuthSpends(before, chainId, w)| {
      j := SpendsAreAuthorized(before, chainId, w, k);
      assert before[..j] == auths[..j];
    } else {
      j := last;
      AuthorizationCounts(AfterAuths(before, chainId, w), auths[last], chainId);
    }
  }

  // And every one that counts where it stands is spent.
  lemma {:induction false} CountingAreSpent(auths: seq<Authorization>, chainId: nat, w: World, j: nat)
    requires j < |auths| && forall i :: 0 <= i < |auths| ==> auths[i].nonce < TWO_64
    requires Counts(AfterAuths(auths[..j], chainId, w), auths[j], chainId)
    ensures SpendOf(auths[j]) in AuthSpends(auths, chainId, w)
  {
    var last := |auths| - 1;
    var before := auths[..last];
    if j < last {
      assert before[..j] == auths[..j];
      CountingAreSpent(before, chainId, w, j);
    } else {
      AuthorizationCounts(AfterAuths(before, chainId, w), auths[j], chainId);
    }
  }

  ghost function SpentBy(spends: seq<Spend>, a: Addr): nat {
    if spends == [] then 0
    else SpentBy(spends[..|spends| - 1], a) + if spends[|spends| - 1].account == a then 1 else 0
  }

  // A list raises the nonce of each account by the number of signatures it spends of it, and changes
  // no balance and no account without one.
  lemma {:induction false} AuthsLeave(auths: seq<Authorization>, chainId: nat, w: World, a: Addr)
    requires forall i :: 0 <= i < |auths| ==> auths[i].nonce < TWO_64
    ensures var w', n := AfterAuths(auths, chainId, w), SpentBy(AuthSpends(auths, chainId, w), a);
            && Get(w', a).nonce == Get(w, a).nonce + n && Get(w', a).balance == Get(w, a).balance
            && (n == 0 ==> Get(w', a) == Get(w, a)) && w'.rest == w.rest
    decreases |auths|
  {
    if auths != [] {
      var last := |auths| - 1;
      var before, spends := auths[..last], AuthSpends(auths[..last], chainId, w);
      AuthsLeave(before, chainId, w, a);
      var w1 := AfterAuths(before, chainId, w);
      AuthorizationCounts(w1, auths[last], chainId);
      if Counts(w1, auths[last], chainId) {
        AuthorizationLeaves(w1, auths[last], chainId, a);
        assert (spends + [SpendOf(auths[last])])[..|spends|] == spends;
      } else {
        assert spends + [] == spends;
      }
    }
  }

  // A message that passes the checks has all its authorizations tried.
  lemma {:induction false} AllAreTried(m: Message, ctx: Context, w: World, pool: nat)
    requires Acceptable(m, ctx, w, pool)
    ensures m.authList.Some? ==> AuthsOf(m) == m.authList.value && AuthsOf(m) != []
    ensures m.authList.None? ==> AuthsOf(m) == []
  {
  }

  /* The whole of a message as a function */

  // The sender has paid up front.
  ghost function Charged(w: World, m: Message, ctx: Context): World {
    if Prepaid(m, ctx) <= Get(w, m.from).balance then Debited(w, m.from, Prepaid(m, ctx)) else w
  }

  // The world a message that has been paid for runs in: nonce taken, authorizations applied.
  ghost function Prepared(w: World, m: Message, ctx: Context): World {
    AfterAuths(AuthsOf(m), ctx.chainId, Bumped(w, m.from))
  }

  // All the signatures it spends: the sender's and those of its valid authorizations, in order.
  ghost function Signatures(w: World, m: Message, ctx: Context): seq<Spend> {
    [Spend(m.from, m.nonce)] + AuthSpends(AuthsOf(m), ctx.chainId, Bumped(w, m.from))
  }

  // The same from the world before the payment.
  ghost function Before(w: World, m: Message, ctx: Context): World {
    Prepared(Charged(w, m, ctx), m, ctx)
  }

  ghost function SpendsOf(w: World, m: Message, ctx: Context): seq<Spend> {
    Signatures(Charged(w, m, ctx), m, ctx)
  }

  function Monus(x: nat, y: nat): nat {
    if y <= x then x - y else 0
  }

  datatype Outcome = Outcome(world: World, used: nat, failed: bool, burnt: nat)

  // What the machine does with a message once it has been paid for.
  ghost function EffectOf(run: Machine, m: Message, ctx: Context, w: World): Effect
    requires |m.data| < TWO_64
  {
    run(m, ctx, Monus(m.gasLimit, Intrinsic(m, ctx)), Before(w, m, ctx))
  }

  // The gas gone before the refund.
  ghost function Gross(run: Machine, m: Message, ctx: Context, w: World): nat
    requires |m.data| < TWO_64
  {
    Monus(m.gasLimit, EffectOf(run, m, ctx, w).gasLeft)
  }

  // What applying a message makes of the world.
  ghost function OutcomeOf(run: Machine, m: Message, ctx: Context, w: World): Outcome
    requires |m.data| < TWO_64
  {
    var e := EffectOf(run, m, ctx, w);
    var gross := Monus(m.gasLimit, e.gasLeft);
    var used := Monus(gross, Refund(gross, ctx, e.world.refund));
    var left := Monus(m.gasLimit, used);
    Outcome(FeesPaid(m, ctx, Credited(e.world, m.from, Cost(left, m.gasPrice)), Tips(m, ctx, used)),
            used, e.failed, e.burnt)
  }

  // Who is paid when a message is settled: the sender for the gas it gets back; of the fees under
  // Parlia the system account takes tips and blob fee, elsewhere the coinbase the tips. Nobody else,
  // and no nonce, code or storage, changes.
  lemma {:induction false} WhoIsPaid(run: Machine, m: Message, ctx: Context, w: World, a: Addr)
    requires |m.data| < TWO_64
    ensures var o, w1 := OutcomeOf(run, m, ctx, w), EffectOf(run, m, ctx, w).world;
            var collector := if ctx.rules.parlia then SYSTEM_ADDRESS else ctx.coinbase;
            var blobFee := if ctx.rules.parlia then BlobFee(m, ctx, ctx.blobBaseFee) else 0;
            && Get(o.world, a).balance == Get(w1, a).balance
                                          + (if a == m.from then Cost(Monus(m.gasLimit, o.used), m.gasPrice) else 0)
                                          + (if a == collector then Tips(m, ctx, o.used) + blobFee else 0)
            && Get(o.world, a).nonce == Get(w1, a).nonce && Get(o.world, a).code == Get(w1, a).code
            && o.world.rest == w1.rest && o.world.refund == w1.refund
  {
  }

  // A message uses gas exactly when gas is gone before the refund, and an intrinsic cost sees to that.
  lemma {:induction false} UsesGas(run: Machine, m: Message, ctx: Context, w: World)
    requires |m.data| < TWO_64
    ensures OutcomeOf(run, m, ctx, w).used > 0 <==> Gross(run, m, ctx, w) > 0
    ensures Intrinsic(m, ctx) <= m.gasLimit && EffectOf(run, m, ctx, w).gasLeft <= m.gasLimit - Intrinsic(m, ctx) ==>
              Gross(run, m, ctx, w) >= Intrinsic(m, ctx)
  {
    var gross := Gross(run, m, ctx, w);
    RefundCap(gross, ctx, Refund(gross, ctx, EffectOf(run, m, ctx, w).world.refund));
  }

  lemma {:induction false} OutcomeIs(run: Machine, m: Message, ctx: Context, w: World, t: Ran, r: Result, left: nat,
                                     w': World)
    requires |m.data| < TWO_64 && Intrinsic(m, ctx) <= m.gasLimit
    requires RanBy(run, m, ctx, t) && t.given == m.gasLimit - Intrinsic(m, ctx) && t.before == Before(w, m, ctx)
    requires GasSettled(r, m.gasLimit - t.effect.gasLeft, t.effect.world.refund, ctx) && r.failed == t.effect.failed
    requires IsSettled(m, ctx, t.effect.world, r.usedGas, left, w')
    ensures OutcomeOf(run, m, ctx, w) == Outcome(w', r.usedGas, r.failed, t.effect.burnt)
  {
  }

  datatype Result =
    | Done(usedGas: nat, refundedGas: nat, failed: bool)
    | Rejected(error: Error)

  class StateTransition {
    const gp: GasPool
    const state: StateDB
    const msg: Message
    const ctx: Context
    const run: Machine
    var gasRemaining: nat
    var initialGas: nat

    constructor (gp: GasPool, state: StateDB, msg: Message, ctx: Context, run: Machine)
      ensures this.gp == gp && this.state == state && this.msg == msg && this.ctx == ctx && this.run == run
    {
      this.gp, this.state, this.msg, this.ctx, this.run := gp, state, msg, ctx, run;
      gasRemaining, initialGas := 0, 0;
    }

    // What block processing guarantees about its messages and its header.
    ghost predicate Ready()
      reads this, gp, state
    {
      && Sized(state.world) && gp.Valid() && Typed(msg) && Priced(msg, ctx.baseFee)
      && (ctx.rules.london ==> ctx.baseFee.Some?)
      && Lawful(run)
    }

    // Gas has been bought: the pool and the sender have given it up, and so much of it is left.
    twostate predicate Bought(left: nat)
      reads this, gp, state
    {
      && gp.Valid() && gp.gas == old(gp.gas) - msg.gasLimit
      && gasRemaining == left && initialGas == msg.gasLimit
      && Sized(state.world) && Forward(old(state.world), state.world)
      && Total(state.world) == old(Total(state.world)) - Prepaid(msg, ctx)
      && Prepaid(msg, ctx) <= old(Get(state.world, msg.from)).balance
      && state.world == Debited(old(state.world), msg.from, Prepaid(msg, ctx))
      && Get(state.world, msg.from).balance >= msg.value && msg.value < TWO_256
    }

    // What is paid up front and what must be there.
    method Amounts() returns (mgval: nat, balanceCheck: nat)
      ensures mgval == Prepaid(msg, ctx) && balanceCheck == MaxCost(msg, ctx)
    {
      CostIsProduct(msg.gasLimit, msg.gasPrice);
      CostIsProduct(msg.gasLimit, msg.gasFeeCap);
      mgval := msg.gasLimit * msg.gasPrice;
      balanceCheck := msg.gasLimit * msg.gasFeeCap + msg.value;
      if ctx.rules.cancun {
        var blobGas := BlobGas(msg);
        if blobGas > 0 {
          CostIsProduct(blobGas, msg.blobGasFeeCap);
          CostIsProduct(blobGas, ctx.blobBaseFee);
          balanceCheck := balanceCheck + blobGas * msg.blobGasFeeCap;
          mgval := mgval + blobGas * ctx.blobBaseFee;
        }
      }
    }

    method BuyGas() returns (err: Option<Error>)
      requires Ready() && Capped(msg, ctx)
      modifies this, gp, state
      ensures err.None? <==>
                && MaxCost(msg, ctx) < TWO_256 && MaxCost(msg, ctx) <= old(Get(state.world, msg.from).balance)
                && msg.gasLimit <= old(gp.gas)
      ensures err.None? ==> Bought(msg.gasLimit)
      ensures err.Some? ==> gp.Valid() && gp.gas == old(gp.gas) && state.world == old(state.world)
      ensures err.Some? ==> Explains(err.value, msg, ctx, old(state.world), old(gp.gas))
    {
      var mgval, balanceCheck := Amounts();
      CostCovers(msg, ctx);
      if balanceCheck >= TWO_256 || Get(state.world, msg.from).balance < balanceCheck {
        return Some(InsufficientFunds);
      }
      var ok := gp.SubGas(msg.gasLimit);
      if !ok {
        return Some(GasLimitReached);
      }
      gasRemaining, initialGas := msg.gasLimit, msg.gasLimit;
      state.SubBalance(msg.from, mgval % TWO_256);
      err := None;
    }

    // The checks on nonce and sender, in the order they are made.
    function CheckSender(w: World): (err: Option<Error>)
      ensures err.None? <==>
                Get(w, msg.from).nonce == msg.nonce && Add64(msg.nonce, 1) >= msg.nonce && External(w, msg.from)
    {
      var nonce := Get(w, msg.from).nonce;
      if nonce < msg.nonce then Some(NonceTooHigh)
      else if nonce > msg.nonce then Some(NonceTooLow)
      else if Add64(nonce, 1) < nonce then Some(NonceMax)
      else if !External(w, msg.from) then Some(SenderNoEOA)
      else None
    }

    function CheckFees(): (err: Option<Error>)
      requires ctx.rules.london ==> ctx.baseFee.Some?
      ensures err.None? <==>
                (ctx.rules.london ==>
                   msg.gasFeeCap < TWO_256 && msg.gasTipCap <= msg.gasFeeCap && ctx.baseFee.value <= msg.gasFeeCap)
    {
      if !ctx.rules.london then None
      else if msg.gasFeeCap >= TWO_256 then Some(FeeCapVeryHigh)
      else if msg.gasTipCap >= TWO_256 then Some(TipVeryHigh)
      else if msg.gasFeeCap < msg.gasTipCap then Some(TipAboveFeeCap)
      else if msg.gasFeeCap < ctx.baseFee.value then Some(FeeCapTooLow)
      else None
    }

    function CheckBlobs(): Option<Error> {
      if msg.blobVersions.Some? && msg.to.None? then Some(BlobTxCreate)
      else if msg.blobVersions.Some? && msg.blobVersions.value == [] then Some(MissingBlobHashes)
      else if msg.blobVersions.Some? &&
              (exists i :: 0 <= i < |msg.blobVersions.value| && msg.blobVersions.value[i] != BLOB_HASH_VERSION)
      then Some(BlobHashVersion)
      else if ctx.rules.cancun && BlobGas(msg) > 0 && msg.blobGasFeeCap < ctx.blobBaseFee then Some(BlobFeeCapTooLow)
      else None
    }

    function CheckAuthList(): Option<Error> {
      if msg.authList.Some? && msg.to.None? then Some(SetCodeTxCreate)
      else if msg.authList.Some? && msg.authList.value == [] then Some(EmptyAuthList)
      else None
    }

    // Accepts exactly the acceptable messages, and changes nothing when it refuses.
    method PreCheck() returns (err: Option<Error>)
      requires Ready()
      modifies this, gp, state
      ensures err.None? <==> Acceptable(msg, ctx, old(state.world), old(gp.gas))
      ensures err.None? ==> Bought(msg.gasLimit) && Capped(msg, ctx)
      ensures err.Some? ==> gp.Valid() && gp.gas == old(gp.gas) && state.world == old(state.world)
      ensures err.Some? ==> Explains(err.value, msg, ctx, old(state.world), old(gp.gas))
    {
      err := CheckSender(state.world);
      if err.Some? { return; }
      err := CheckFees();
      if err.Some? { return; }
      err := CheckBlobs();
      if err.Some? { return; }
      err := CheckAuthList();
      if err.Some? { return; }
      err := BuyGas();
    }

    // Applies an authorization that is in order and skips any other.
    method ApplyAuthorization(auth: Authorization, ghost log: seq<Spend>) returns (ghost log': seq<Spend>)
      requires auth.nonce < TWO_64 && Sized(state.world) && NoReplay(state.world, log)
      modifies state
      ensures Sized(state.world) && Total(state.world) == old(Total(state.world))
      ensures Forward(old(state.world), state.world)
      ensures NoReplay(state.world, log')
      ensures state.world == AuthStep(old(state.world), auth, ctx.chainId)
      ensures log' == log + AuthSpend(old(state.world), auth, ctx.chainId)
    {
      log' := log;
      if AuthorizationOk(auth, ctx.chainId, state.world) {
        var a := auth.authority.value;
        // An authority that exists already gets the cost of a new account back.
        var refund := if a in state.world.accounts then CALL_NEW_ACCOUNT_GAS - TX_AUTH_TUPLE_GAS else 0;
        var x := Get(state.world, a).(nonce := auth.nonce + 1, code := Installed(auth));
        SpendNonce(state.world, a, x, log);
        log' := log + [Spend(a, auth.nonce)];
        var w := Put(state.world, a, x);
        var w' := w.(refund := w.refund + refund);
        SameAccounts(w, w', log');
        ForwardTransitive(state.world, w, w');
        state.world := w';
      }
    }

    // Applies all authorizations in order, each in the world its predecessors left.
    method ApplyAuthorizations(ghost log: seq<Spend>) returns (ghost log': seq<Spend>)
      requires Typed(msg) && Sized(state.world) && NoReplay(state.world, log)
      modifies state
      ensures Sized(state.world) && Total(state.world) == old(Total(state.world))
      ensures Forward(old(state.world), state.world)
      ensures state.world == AfterAuths(AuthsOf(msg), ctx.chainId, old(state.world))
      ensures NoReplay(state.world, log') && log' == log + AuthSpends(AuthsOf(msg), ctx.chainId, old(state.world))
    {
      log' := log;
      var auths := AuthsOf(msg);
      ghost var w0 := state.world;
      for i := 0 to |auths|
        invariant Sized(state.world) && Total(state.world) == Total(w0) && Forward(w0, state.world)
        invariant state.world == AfterAuths(auths[..i], ctx.chainId, w0)
        invariant NoReplay(state.world, log') && log' == log + AuthSpends(auths[..i], ctx.chainId, w0)
      {
        assert auths[..i + 1][..i] == auths[..i];
        ghost var w := state.world;
        log' := ApplyAuthorization(auths[i], log');
        ForwardTransitive(w0, w, state.world);
      }
      assert auths[..|auths|] == auths;
    }

    // Takes the sender's nonce: before a call, and as the first thing a creation does.
    method BumpNonce(ghost log: seq<Spend>)
      requires Sized(state.world) && NoReplay(state.world, log) && External(state.world, msg.from)
      requires Get(state.world, msg.from).nonce == msg.nonce < TWO_64 - 1
      modifies state
      ensures Sized(state.world) && Total(state.world) == old(Total(state.world))
      ensures Forward(old(state.world), state.world)
      ensures NoReplay(state.world, log + [Spend(msg.from, msg.nonce)])
      ensures state.world == Bumped(old(state.world), msg.from)
    {
      var x := Get(state.world, msg.from);
      var x' := x.(nonce := Add64(x.nonce, 1));
      SpendNonce(state.world, msg.from, x', log);
      state.world := Put(state.world, msg.from, x');
    }

    // Runs the message. The nonce is spent, with those of all authorizations in order, whatever
    // becomes of the run. A creation's own checks of the balance and the nonce cannot fail here.
    method Invoke(ghost log: seq<Spend>) returns (failed: bool, ghost t: Ran, ghost log': seq<Spend>)
      requires Lawful(run) && Typed(msg) && Sized(state.world) && NoReplay(state.world, log)
      requires External(state.world, msg.from) && Get(state.world, msg.from).balance >= msg.value
      requires Get(state.world, msg.from).nonce == msg.nonce < TWO_64 - 1
      modifies this`gasRemaining, state
      ensures RanBy(run, msg, ctx, t) && t.given == old(gasRemaining)
      ensures state.world == t.effect.world && gasRemaining == t.effect.gasLeft && failed == t.effect.failed
      ensures Sized(state.world) && Total(state.world) + t.effect.burnt == old(Total(state.world))
      ensures t.before == Prepared(old(state.world), msg, ctx)
      ensures Forward(old(state.world), state.world) && NoReplay(state.world, log')
      ensures log' == log + Signatures(old(state.world), msg, ctx)
    {
      ghost var w := state.world;
      log' := log + [Spend(msg.from, msg.nonce)];
      BumpNonce(log);
      ghost var w1 := state.world;
      log' := ApplyAuthorizations(log');
      assert log' == log + Signatures(w, msg, ctx);
      ForwardTransitive(w, w1, state.world);
      var e := run(msg, ctx, gasRemaining, state.world);
      assert Law(state.world, gasRemaining, e);
      ForwardTransitive(w, state.world, e.world);
      NoReplayForward(state.world, e.world, log');
      t := Ran(state.world, gasRemaining, e);
      state.world, gasRemaining, failed := e.world, e.gasLeft, e.failed;
    }

    // Gives back the refund, capped, and what is left of the gas: as wei to the sender and as gas
    // to the block.
    method RefundGas() returns (refund: nat)
      requires Sized(state.world) && gp.Valid() && gasRemaining <= initialGas == msg.gasLimit
      requires Total(state.world) + Cost(msg.gasLimit, msg.gasPrice) < TWO_256 && gp.gas + msg.gasLimit < TWO_64
      modifies this`gasRemaining, gp, state
      ensures gasRemaining == old(gasRemaining) + refund <= initialGas
      ensures refund == Refund(initialGas - old(gasRemaining), ctx, old(state.world.refund))
      ensures Economical(initialGas - gasRemaining, initialGas - old(gasRemaining), ctx)
      ensures gp.Valid() && gp.gas == old(gp.gas) + gasRemaining
      ensures Sized(state.world) && Forward(old(state.world), state.world)
      ensures Total(state.world) == old(Total(state.world)) + Cost(gasRemaining, msg.gasPrice)
      ensures state.world == Credited(old(state.world), msg.from, Cost(gasRemaining, msg.gasPrice))
    {
      refund := (initialGas - gasRemaining) / Quotient(ctx);
      if refund > state.world.refund {
        refund := state.world.refund;
      }
      RefundCap(initialGas - gasRemaining, ctx, refund);
      gasRemaining := gasRemaining + refund;
      CostAdd(gasRemaining, initialGas - gasRemaining, msg.gasPrice);
      WrappedProduct(gasRemaining, msg.gasPrice);
      var remaining := (gasRemaining * (msg.gasPrice % TWO_256)) % TWO_256;
      state.AddBalance(msg.from, remaining);
      gp.AddGas(gasRemaining);
    }

    method TipsFor(used: nat) returns (fee: nat)
      requires EffectiveTip(msg, ctx.rules.london, BaseFee(ctx)) >= 0 && Tips(msg, ctx, used) < TWO_256
      ensures fee == Tips(msg, ctx, used)
    {
      var tip := EffectiveTip(msg, ctx.rules.london, BaseFee(ctx));
      WrappedProduct(used, tip);
      fee := (used * (tip % TWO_256)) % TWO_256;
    }

    // Pays the tips and, under Parlia, the blob fee to the system account; elsewhere the tips go
    // to the coinbase.
    method PayFees(used: nat)
      requires Sized(state.world) && EffectiveTip(msg, ctx.rules.london, BaseFee(ctx)) >= 0
      requires Total(state.world) + Tips(msg, ctx, used) + BlobFee(msg, ctx, ctx.blobBaseFee) < TWO_256
      modifies state
      ensures Sized(state.world) && Forward(old(state.world), state.world)
      ensures Total(state.world) == old(Total(state.world)) + Tips(msg, ctx, used)
                                    + if ctx.rules.parlia then BlobFee(msg, ctx, ctx.blobBaseFee) else 0
      ensures state.world == FeesPaid(msg, ctx, old(state.world), Tips(msg, ctx, used))
    {
      var fee := TipsFor(used);
      if ctx.rules.parlia {
        ghost var w := state.world;
        state.AddBalance(SYSTEM_ADDRESS, fee);
        ghost var w1 := state.world;
        if ctx.rules.cancun {
          CostIsProduct(BlobGas(msg), ctx.blobBaseFee);
          state.AddBalance(SYSTEM_ADDRESS, (BlobGas(msg) * ctx.blobBaseFee) % TWO_256);
          ForwardTransitive(w, w1, state.world);
        }
      } else {
        state.AddBalance(ctx.coinbase, fee);
      }
    }

    // The gas a message is charged before it runs.
    method ChargeIntrinsic() returns (err: Option<Error>)
      requires Typed(msg)
      modifies this`gasRemaining
      ensures err.None? <==> IntrinsicCovered(msg, ctx, old(gasRemaining))
      ensures err.None? ==> gasRemaining == old(gasRemaining) - Intrinsic(msg, ctx)
      ensures err.Some? ==> err.value == if PlainGas(msg, ctx) >= TWO_64 then GasUintOverflow else IntrinsicGasTooLow
    {
      var gas := IntrinsicGas(msg.data, msg.accessList, Auths(msg), msg.to.None?,
                              ctx.rules.homestead, ctx.rules.istanbul, ctx.rules.shanghai);
      if gas.None? {
        return Some(GasUintOverflow);
      }
      if gasRemaining < gas.value {
        return Some(IntrinsicGasTooLow);
      }
      gasRemaining := gasRemaining - gas.value;
      err := None;
    }

    // Everything that can still reject the message. The checks that the value fits 256 bits and
    // that the sender can still transfer it cannot fail after the gas was bought.
    method Admit() returns (err: Option<Error>)
      requires Ready()
      modifies this, gp, state
      ensures err.None? <==> Executable(msg, ctx, old(state.world), old(gp.gas))
      ensures err.None? ==> Capped(msg, ctx) && Intrinsic(msg, ctx) <= msg.gasLimit
      ensures err.None? ==> Bought(msg.gasLimit - Intrinsic(msg, ctx))
      ensures err.Some? ==> Explains(err.value, msg, ctx, old(state.world), old(gp.gas))
    {
      err := PreCheck();
      if err.Some? {
        return;
      }
      if ctx.rules.nano && (msg.from in ctx.blackList || (msg.to.Some? && msg.to.value in ctx.blackList)) {
        return Some(Blacklisted);
      }
      err := ChargeIntrinsic();
      if err.Some? {
        return;
      }
      if ctx.rules.shanghai && msg.to.None? && |msg.data| > MAX_INIT_CODE_SIZE {
        return Some(MaxInitCodeSizeExceeded);
      }
    }

    // Runs an admitted message and settles gas and fees.
    method Settle(ghost log: seq<Spend>)
      returns (r: Result, ghost t: Ran, ghost log': seq<Spend>)
      requires Lawful(run) && Typed(msg) && Priced(msg, ctx.baseFee) && Capped(msg, ctx)
      requires Sized(state.world) && NoReplay(state.world, log)
      requires External(state.world, msg.from) && Get(state.world, msg.from).balance >= msg.value
      requires Get(state.world, msg.from).nonce == msg.nonce < TWO_64 - 1
      requires gasRemaining <= initialGas == msg.gasLimit && gp.Valid() && gp.gas + msg.gasLimit < TWO_64
      requires Total(state.world) + Prepaid(msg, ctx) < TWO_256
      modifies this`gasRemaining, gp, state
      ensures r.Done? && r.usedGas <= msg.gasLimit && gp.Valid() && gp.gas == old(gp.gas) + msg.gasLimit - r.usedGas
      ensures Sized(state.world) && Forward(old(state.world), state.world)
      ensures RanBy(run, msg, ctx, t) && t.given == old(gasRemaining)
      ensures t.before == Prepared(old(state.world), msg, ctx)
      ensures GasSettled(r, msg.gasLimit - t.effect.gasLeft, t.effect.world.refund, ctx) && r.failed == t.effect.failed
      ensures IsSettled(msg, ctx, t.effect.world, r.usedGas, gasRemaining, state.world)
      ensures Total(state.world) + t.effect.burnt + Loss(msg, ctx, r.usedGas) ==
              old(Total(state.world)) + Prepaid(msg, ctx)
      ensures NoReplay(state.world, log')
      ensures log' == log + Signatures(old(state.world), msg, ctx)
    {
      ghost var w0 := state.world;
      var failed;
      failed, t, log' := Invoke(log);
      ghost var w1 := state.world;
      var refund := RefundGas();
      ghost var w2 := state.world;
      var used := initialGas - gasRemaining;
      FeesFit(msg, ctx, used, gasRemaining);
      PayFees(used);
      ForwardTransitive(w1, w2, state.world);
      ForwardTransitive(w0, w1, state.world);
      NoReplayForward(w1, state.world, log');
      r := Done(used, refund, failed);
    }

    // Applies the message. It either rejects it, or settles every account: all balances together
    // lose just the base fee of the gas used and what the run burnt, the pool loses just the gas
    // used, and the sender's nonce and those of the authorizations are spent for good.
    method Execute(ghost log: seq<Spend>)
      returns (r: Result, ghost t: Ran, ghost log': seq<Spend>)
      requires Ready() && NoReplay(state.world, log)
      modifies this, gp, state
      ensures r.Done? <==> Executable(msg, ctx, old(state.world), old(gp.gas))
      ensures r.Rejected? ==> Explains(r.error, msg, ctx, old(state.world), old(gp.gas))
      ensures r.Done? ==> Sized(state.world) && Forward(old(state.world), state.world)
      ensures r.Done? ==> gp.Valid() && gp.gas == old(gp.gas) - r.usedGas && Intrinsic(msg, ctx) <= msg.gasLimit
      ensures r.Done? ==> RanBy(run, msg, ctx, t) && t.given == msg.gasLimit - Intrinsic(msg, ctx)
      ensures r.Done? ==> t.before == Before(old(state.world), msg, ctx)
      ensures r.Done? ==>
                && GasSettled(r, msg.gasLimit - t.effect.gasLeft, t.effect.world.refund, ctx)
                && r.failed == t.effect.failed
      ensures r.Done? ==>
                && IsSettled(msg, ctx, t.effect.world, r.usedGas, gasRemaining, state.world)
                && Total(state.world) + t.effect.burnt + Loss(msg, ctx, r.usedGas) == old(Total(state.world))
      ensures r.Done? ==> NoReplay(state.world, log') && log' == log + SpendsOf(old(state.world), msg, ctx)
    {
      t, log' := Ran(state.world, 0, Effect(state.world, 0, false, 0)), log;
      ghost var w0 := state.world;
      var err := Admit();
      if err.Some? {
        r := Rejected(err.value);
      } else {
        ghost var w1 := state.world;
        NoReplayForward(w0, w1, log);
        r, t, log' := Settle(log);
        assert w1 == Charged(w0, msg, ctx);
        ForwardTransitive(w0, w1, state.world);
      }
    }
  }
}
