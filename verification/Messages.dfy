/** Transactions and messages: what they cost before any code runs, and at which price. */
module Messages {
  import opened Basics
  import opened Accounts
  import opened Headers

  const TX_GAS := 21000
  const TX_GAS_CONTRACT_CREATION := 53000
  const TX_DATA_ZERO_GAS := 4
  const TX_DATA_NON_ZERO_GAS_FRONTIER := 68
  const TX_DATA_NON_ZERO_GAS_EIP2028 := 16
  const INIT_CODE_WORD_GAS := 2
  const TX_ACCESS_LIST_ADDRESS_GAS := 2400
  const TX_ACCESS_LIST_STORAGE_KEY_GAS := 1900
  const CALL_NEW_ACCOUNT_GAS := 25000
  const TX_AUTH_TUPLE_GAS := 12500
  const BLOB_GAS_PER_BLOB := 131072
  const BLOB_HASH_VERSION := 1

  type Byte = x: int | 0 <= x < 256

  // An access list by its number of addresses and of storage keys.
  datatype AccessList = AccessList(addresses: nat, storageKeys: nat)

  // A signed code delegation. The authority is absent when the signature is not valid.
  datatype Authorization = Authorization(chainId: nat, target: Addr, nonce: nat, authority: Option<Addr>)

  datatype Message = Message(
    from: Addr,
    to: Option<Addr>,
    nonce: nat,
    value: nat,
    gasLimit: nat,
    gasPrice: nat,
    gasFeeCap: nat,
    gasTipCap: nat,
    data: seq<Byte>,
    accessList: Option<AccessList>,
    authList: Option<seq<Authorization>>,
    blobVersions: Option<seq<Byte>>,
    blobGasFeeCap: nat)

  // What 64-bit fields and slice lengths guarantee.
  ghost predicate Typed(m: Message) {
    && m.nonce < TWO_64 && m.gasLimit < TWO_64 && |m.data| < TWO_64
    && (m.authList.Some? ==> forall i :: 0 <= i < |m.authList.value| ==> m.authList.value[i].nonce < TWO_64)
  }

  function Min(x: int, y: int): int {
    if x <= y then x else y
  }

  /* Intrinsic gas */

  ghost function NonZero(data: seq<Byte>): (n: nat)
    ensures n <= |data|
  {
    if data == [] then 0 else NonZero(data[..|data| - 1]) + if data[|data| - 1] != 0 then 1 else 0
  }

  // The number of 32-byte words that hold the bytes, without leaving 64 bits on the way.
  function ToWordSize(size: nat): (words: nat)
    requires size < TWO_64
    ensures 32 * words >= size && 32 * words < size + 32
  {
    if size > TWO_64 - 1 - 31 then (TWO_64 - 1) / 32 + 1 else (size + 31) / 32
  }

  ghost function DataGas(data: seq<Byte>, creation: bool, eip2028: bool, eip3860: bool): nat
    requires |data| < TWO_64
  {
    var nz := NonZero(data);
    (if eip2028 then nz * TX_DATA_NON_ZERO_GAS_EIP2028 else nz * TX_DATA_NON_ZERO_GAS_FRONTIER)
    + (|data| - nz) * TX_DATA_ZERO_GAS
    + if creation && eip3860 then ToWordSize(|data|) * INIT_CODE_WORD_GAS else 0
  }

  ghost function BaseGas(creation: bool, homestead: bool): nat {
    if creation && homestead then TX_GAS_CONTRACT_CREATION else TX_GAS
  }

  function ListGas(accessList: Option<AccessList>, auths: Option<nat>): nat {
    (if accessList.Some?
     then accessList.value.addresses * TX_ACCESS_LIST_ADDRESS_GAS
          + accessList.value.storageKeys * TX_ACCESS_LIST_STORAGE_KEY_GAS
     else 0)
    + if auths.Some? then auths.value * CALL_NEW_ACCOUNT_GAS else 0
  }

  // Each byte of the data is charged by itself: 4 gas for a zero, 16 for any other since EIP-2028 and
  // 68 before.
  lemma {:induction false} DataGasByByte(data: seq<Byte>, b: Byte, creation: bool, eip2028: bool)
    requires |data| + 1 < TWO_64
    ensures DataGas([], creation, eip2028, false) == 0
    ensures DataGas(data + [b], creation, eip2028, false) ==
            DataGas(data, creation, eip2028, false) + if b == 0 then 4 else if eip2028 then 16 else 68
  {
    assert (data + [b])[..|data|] == data;
  }

  // The code of a creation is charged 2 gas a word on top since EIP-3860, a call's data never.
  lemma {:induction false} InitCodeByWord(data: seq<Byte>, eip2028: bool)
    requires |data| < TWO_64
    ensures var words := (|data| + 31) / 32;
            DataGas(data, true, eip2028, true) == DataGas(data, true, eip2028, false) + 2 * words
    ensures DataGas(data, false, eip2028, true) == DataGas(data, false, eip2028, false)
  {
  }

  // A creation starts at 53000 gas since Homestead, everything else at 21000. Addresses and storage
  // keys of an access list and authorizations have a price each.
  lemma {:induction false} BaseAndLists(addresses: nat, keys: nat, auths: nat)
    ensures BaseGas(true, true) == 53000
    ensures BaseGas(true, false) == BaseGas(false, true) == BaseGas(false, false) == 21000
    ensures ListGas(Some(AccessList(addresses, keys)), Some(auths)) == 2400 * addresses + 1900 * keys + 25000 * auths
    ensures ListGas(None, Some(auths)) == 25000 * auths && ListGas(None, None) == 0
    ensures ListGas(Some(AccessList(addresses, keys)), None) == 2400 * addresses + 1900 * keys
  {
  }

  // Adds a product to a 64-bit count, or tells that it does not fit.
  method AddProduct(gas: nat, price: nat, count: nat) returns (sum: Option<nat>)
    requires gas < TWO_64 && price > 0
    ensures sum == if gas + count * price < TWO_64 then Some(gas + count * price) else None
  {
    var room := (TWO_64 - 1 - gas) / price;
    ProductFits(TWO_64 - 1 - gas, price, count);
    sum := if room < count then None else Some(gas + count * price);
  }

  lemma {:induction false} ProductFits(room: nat, price: nat, count: nat)
    requires price > 0
    ensures count <= room / price <==> count * price <= room
  {
    var q, r := room / price, room % price;
    assert room == q * price + r;
    if count <= q {
      assert count * price <= q * price;
    } else {
      assert count * price >= (q + 1) * price;
    }
  }

  method CountNonZero(data: seq<Byte>) returns (nz: nat)
    ensures nz == NonZero(data)
  {
    nz := 0;
    for i := 0 to |data|
      invariant nz == NonZero(data[..i])
    {
      assert data[..i + 1][..i] == data[..i];
      if data[i] != 0 {
        nz := nz + 1;
      }
    }
    assert data[..|data|] == data;
  }

  // The cost of the data on top of what is charged already.
  method AddData(sum: nat, data: seq<Byte>, creation: bool, eip2028: bool, eip3860: bool) returns (gas: Option<nat>)
    requires sum < TWO_64 && |data| < TWO_64
    ensures gas == if sum + DataGas(data, creation, eip2028, eip3860) < TWO_64
                   then Some(sum + DataGas(data, creation, eip2028, eip3860)) else None
  {
    var nz := CountNonZero(data);
    gas := AddProduct(sum, if eip2028 then TX_DATA_NON_ZERO_GAS_EIP2028 else TX_DATA_NON_ZERO_GAS_FRONTIER, nz);
    if gas.Some? {
      gas := AddProduct(gas.value, TX_DATA_ZERO_GAS, |data| - nz);
      if gas.Some? && creation && eip3860 {
        gas := AddProduct(gas.value, INIT_CODE_WORD_GAS, ToWordSize(|data|));
      }
    }
  }

  // A 64-bit addition.
  function Add64(x: nat, y: nat): (z: nat)
    ensures z < TWO_64 && (z == x + y <==> x + y < TWO_64)
  {
    (x + y) % TWO_64
  }

  lemma {:induction false} Add64Twice(x: nat, y: nat, z: nat)
    ensures Add64(Add64(x, y), z) == Add64(x, y + z)
  {
  }

  // The intrinsic gas is exact: an overflow error is given just when the base and data cost
  // leaves 64 bits. The list costs are added without such a check, modulo 64 bits.
  method IntrinsicGas(data: seq<Byte>, accessList: Option<AccessList>, auths: Option<nat>, creation: bool,
                      homestead: bool, eip2028: bool, eip3860: bool) returns (gas: Option<nat>)
    requires |data| < TWO_64
    ensures var exact := BaseGas(creation, homestead) + DataGas(data, creation, eip2028, eip3860);
            && (gas.None? <==> exact >= TWO_64)
            && (gas.Some? ==> gas.value == Add64(exact, ListGas(accessList, auths)))
  {
    var sum: nat := if creation && homestead then TX_GAS_CONTRACT_CREATION else TX_GAS;
    if |data| > 0 {
      gas := AddData(sum, data, creation, eip2028, eip3860);
      if gas.None? { return; }
      sum := gas.value;
    }
    ghost var exact := sum;
    if accessList.Some? {
      var addresses := accessList.value.addresses * TX_ACCESS_LIST_ADDRESS_GAS;
      var keys := accessList.value.storageKeys * TX_ACCESS_LIST_STORAGE_KEY_GAS;
      Add64Twice(exact, addresses, keys);
      sum := Add64(Add64(sum, addresses), keys);
    }
    if auths.Some? {
      Add64Twice(exact, ListGas(accessList, None), auths.value * CALL_NEW_ACCOUNT_GAS);
      sum := Add64(sum, auths.value * CALL_NEW_ACCOUNT_GAS);
    }
    gas := Some(sum);
  }

  /* Prices */

  // So many units of gas at the price.
  ghost function Cost(gas: nat, price: nat): nat {
    if gas == 0 then 0 else Cost(gas - 1, price) + price
  }

  lemma {:induction false} CostIsProduct(gas: nat, price: nat)
    ensures Cost(gas, price) == gas * price
  {
    if gas > 0 {
      CostIsProduct(gas - 1, price);
      assert gas * price == (gas - 1) * price + price;
    }
  }

  lemma {:induction false} CostAdd(gas: nat, more: nat, price: nat)
    ensures Cost(gas + more, price) == Cost(gas, price) + Cost(more, price)
    decreases more
  {
    if more > 0 {
      CostAdd(gas, more - 1, price);
    }
  }

  lemma {:induction false} CostSplit(gas: nat, price: nat, price': nat)
    ensures Cost(gas, price + price') == Cost(gas, price) + Cost(gas, price')
  {
    if gas > 0 {
      CostSplit(gas - 1, price, price');
    }
  }

  lemma {:induction false} CostMonotone(gas: nat, price: nat, price': nat)
    requires price <= price'
    ensures Cost(gas, price) <= Cost(gas, price')
  {
    CostSplit(gas, price, price' - price);
  }

  // A product of machine words that fits is the product.
  lemma {:induction false} WrappedProduct(gas: nat, price: nat)
    requires Cost(gas, price) < TWO_256
    ensures (gas * (price % TWO_256)) % TWO_256 == Cost(gas, price)
  {
    CostIsProduct(gas, price);
    if gas == 0 {
      assert gas * (price % TWO_256) == 0;
    } else {
      assert price <= gas * price;
    }
  }

  // A transaction as the signer's fields give it; the sender is absent when its signature is
  // not valid. For transactions without fee caps all three prices are the same.
  datatype Transaction = Transaction(fields: Message, sender: Option<Addr>, kind: Kind)

  // How the consensus engine classifies a transaction; the classification itself can fail.
  datatype Kind = Ordinary | System | Unclassified

  // The price a message pays under a base fee: never above its fee cap.
  ghost predicate Priced(m: Message, baseFee: Option<nat>) {
    && m.gasPrice <= m.gasFeeCap
    && (baseFee.Some? ==> m.gasPrice == Min(m.gasTipCap + baseFee.value, m.gasFeeCap))
  }

  function ToMessage(tx: Transaction, baseFee: Option<nat>): (m: Option<Message>)
    requires tx.fields.gasPrice <= tx.fields.gasFeeCap
    ensures m.Some? <==> tx.sender.Some?
    ensures m.Some? ==> Priced(m.value, baseFee)
    ensures m.Some? ==> m.value == tx.fields.(from := tx.sender.value, gasPrice := m.value.gasPrice)
    ensures m.Some? && baseFee.None? ==> m.value.gasPrice == tx.fields.gasPrice
  {
    if tx.sender.None? then None
    else
      var m := tx.fields.(from := tx.sender.value);
      if baseFee.None? then Some(m)
      else
        var price := m.gasTipCap + baseFee.value;
        Some(m.(gasPrice := if price > m.gasFeeCap then m.gasFeeCap else price))
  }

  // The share of the price that goes to the validators.
  function EffectiveTip(m: Message, london: bool, baseFee: nat): int {
    if !london then m.gasPrice
    else if m.gasFeeCap - baseFee > m.gasTipCap then m.gasTipCap else m.gasFeeCap - baseFee
  }

  // The two minimums agree: tip and base fee make up the price.
  lemma {:induction false} TipAndBaseFee(m: Message, baseFee: nat)
    requires Priced(m, Some(baseFee)) && m.gasFeeCap >= baseFee
    ensures EffectiveTip(m, true, baseFee) + baseFee == m.gasPrice && EffectiveTip(m, true, baseFee) >= 0
  {
  }

  function BlobGas(m: Message): nat {
    if m.blobVersions.Some? then |m.blobVersions.value| * BLOB_GAS_PER_BLOB else 0
  }

  // The blobs of a message pay 2^17 gas each; one without blobs pays nothing.
  lemma {:induction false} BlobGasAdds(m: Message, a: seq<Byte>, b: seq<Byte>)
    ensures BlobGas(m.(blobVersions := Some(a + b))) ==
            BlobGas(m.(blobVersions := Some(a))) + BlobGas(m.(blobVersions := Some(b)))
    ensures |a| == 1 ==> BlobGas(m.(blobVersions := Some(a))) == 0x20000
    ensures BlobGas(m.(blobVersions := None)) == 0
  {
  }
}
