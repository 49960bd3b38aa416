/** The in-memory state of sputnik's `MemoryBackend` and the storage-override
    capability `BackendExt::set_storage` that the cheatcodes add to it. */
module Backend {
  import opened Words

  /** sputnik's `MemoryAccount`. */
  datatype Account = Account(nonce: U256, balance: U256, storage: map<H256, H256>, code: seq<Byte>)

  /** `MemoryAccount::default()`: zero nonce and balance, no storage, no code. */
  const EmptyAccount: Account := Account(0, 0, map[], [])

  /** The backend's account map, address to account. */
  type State = map<Address, Account>

  /** The value held at `slot` of `address`; an absent account or an absent
      slot reads as the zero word. */
  function Storage(st: State, address: Address, slot: H256): (r: H256)
    ensures address !in st || slot !in st[address].storage ==> r == 0
    ensures address in st && slot in st[address].storage ==> r == st[address].storage[slot]
  {
    if address in st && slot in st[address].storage then st[address].storage[slot] else 0
  }

  /** `BackendExt::set_storage`: create the account with default fields if it
      is absent, then overwrite one slot of its storage. */
  function SetStorage(st: State, address: Address, slot: H256, value: H256): (r: State)
    // the write lands, creating the account when needed
    ensures r.Keys == st.Keys + {address}
    ensures slot in r[address].storage && r[address].storage[slot] == value
    ensures address !in st ==> r[address] == EmptyAccount.(storage := map[slot := value])
    // the account's other fields and other slots are untouched
    ensures address in st ==>
              && r[address].nonce == st[address].nonce
              && r[address].balance == st[address].balance
              && r[address].code == st[address].code
              && r[address].storage.Keys == st[address].storage.Keys + {slot}
    ensures address in st ==>
              forall t :: t in st[address].storage && t != slot ==> r[address].storage[t] == st[address].storage[t]
    // every other account is untouched
    ensures forall b :: b in st && b != address ==> r[b] == st[b]
  {
    var account := if address in st then st[address] else EmptyAccount;
    st[address := account.(storage := account.storage[slot := value])]
  }

  /** Reading back through `Storage`: the written slot reads `value`, every
      other (address, slot) pair reads what it read before. */
  lemma SetStorageReads(st: State, address: Address, slot: H256, value: H256, b: Address, t: H256)
    ensures Storage(SetStorage(st, address, slot, value), b, t)
         == if b == address && t == slot then value else Storage(st, b, t)
  {
  }

  /** Writing the same value twice is the same as writing it once. */
  lemma SetStorageIdempotent(st: State, address: Address, slot: H256, value: H256)
    ensures SetStorage(SetStorage(st, address, slot, value), address, slot, value)
         == SetStorage(st, address, slot, value)
  {
    SetStorageLastWriteWins(st, address, slot, value, value);
  }

  /** Of two writes to the same slot only the second one is visible. */
  lemma SetStorageLastWriteWins(st: State, address: Address, slot: H256, v1: H256, v2: H256)
    ensures SetStorage(SetStorage(st, address, slot, v1), address, slot, v2)
         == SetStorage(st, address, slot, v2)
  {
    var first := SetStorage(st, address, slot, v1);
    var both := SetStorage(first, address, slot, v2);
    var direct := SetStorage(st, address, slot, v2);
    assert both[address] == direct[address] by {
      assert both[address].storage == direct[address].storage;
    }
  }

  /** Writes to two different (address, slot) pairs may be done in either order. */
  lemma SetStorageCommutes(st: State, a1: Address, s1: H256, v1: H256, a2: Address, s2: H256, v2: H256)
    requires a1 != a2 || s1 != s2
    ensures SetStorage(SetStorage(st, a1, s1, v1), a2, s2, v2)
         == SetStorage(SetStorage(st, a2, s2, v2), a1, s1, v1)
  {
    var left := SetStorage(SetStorage(st, a1, s1, v1), a2, s2, v2);
    var right := SetStorage(SetStorage(st, a2, s2, v2), a1, s1, v1);
    assert left.Keys == right.Keys;
    forall b | b in left
      ensures left[b] == right[b]
    {
      if b == a1 || b == a2 {
        assert left[b].storage == right[b].storage;
      }
    }
  }
}
