/** The shared-expense ledger: members, categories and transactions with
    their splits, the balance engine that folds the transactions into one
    signed balance per member, and the local effects of the ledger writes.
    Amounts are integers (cents); the source's floating-point numbers are
    not modelled. */
module Finance {
  import opened Prelude

  datatype Member = Member(id: string, name: string)

  datatype Category = Category(id: string, name: string, icon: Option<string>)

  /** One member's share of an expense. Only `splitAmount` is read by the
      balance engine; the percentage is informational. */
  datatype Split = Split(memberId: string, splitAmount: int, splitPercentage: Option<int>)

  datatype Kind = Expense | Payment

  /** A ledger entry. Missing `splits` are modelled as the empty list; the
      joined display fields (payer, receiver and category names) are left out. */
  datatype Transaction = Transaction(
    id: string,
    kind: Kind,
    title: Option<string>,
    amount: int,
    payerId: string,
    receiverId: Option<string>,
    categoryId: Option<string>,
    date: string,
    notes: Option<string>,
    createdAt: string,
    splits: seq<Split>)

  /** One row of the balances view: the member's own fields plus its balance. */
  datatype MemberBalance = MemberBalance(member: Member, balance: int)

  // ---------------------------------------------------------------------
  // The balance rule, one transaction at a time
  // ---------------------------------------------------------------------

  /** The receiver side of a payment is read only when `receiver_id` is
      truthy: present and not the empty string. */
  predicate HasReceiver(t: Transaction) {
    t.receiverId.Some? && t.receiverId.value != ""
  }

  /** The total that the splits debit from member `id`. */
  function SplitShare(splits: seq<Split>, id: string): int {
    if splits == [] then 0
    else (if splits[0].memberId == id then splits[0].splitAmount else 0) + SplitShare(splits[1..], id)
  }

  /** What a transaction credits to member `id`: the payer gets `amount`. */
  function Credit(t: Transaction, id: string): int {
    if t.payerId == id then t.amount else 0
  }

  /** What a transaction debits from member `id`: its split shares for an
      expense, the whole amount for the receiver of a payment. */
  function Debit(t: Transaction, id: string): int {
    match t.kind
    case Expense => SplitShare(t.splits, id)
    case Payment => if HasReceiver(t) && t.receiverId.value == id then t.amount else 0
  }

  /** The change one transaction makes to the balance of member `id`. */
  function Delta(t: Transaction, id: string): int {
    Credit(t, id) - Debit(t, id)
  }

  /** The balance of member `id`: every transaction applied once. */
  function Balance(txs: seq<Transaction>, id: string): int {
    if txs == [] then 0 else Delta(txs[0], id) + Balance(txs[1..], id)
  }

  /** Whether the balance engine reads `id` anywhere in `t`. */
  predicate Mentions(t: Transaction, id: string) {
    || t.payerId == id
    || (t.kind == Expense && exists j :: 0 <= j < |t.splits| && t.splits[j].memberId == id)
    || (t.kind == Payment && HasReceiver(t) && t.receiverId.value == id)
  }

  lemma {:induction false} SplitShareAppend(a: seq<Split>, b: seq<Split>, id: string)
    ensures SplitShare(a + b, id) == SplitShare(a, id) + SplitShare(b, id)
  {
    if a == [] {
      assert a + b == b;
    } else {
      assert (a + b)[1..] == a[1..] + b;
      SplitShareAppend(a[1..], b, id);
    }
  }

  /** Balances are additive over the ledger. */
  lemma {:induction false} BalanceAppend(a: seq<Transaction>, b: seq<Transaction>, id: string)
    ensures Balance(a + b, id) == Balance(a, id) + Balance(b, id)
  {
    if a == [] {
      assert a + b == b;
    } else {
      assert (a + b)[1..] == a[1..] + b;
      BalanceAppend(a[1..], b, id);
    }
  }

  /** Adding an expense credits its payer with `amount` and debits every
      split's member with that split's amount; nobody else moves. */
  lemma ExpenseEffect(txs: seq<Transaction>, t: Transaction, id: string)
    requires t.kind == Expense
    ensures Balance(txs + [t], id)
         == Balance(txs, id) + (if id == t.payerId then t.amount else 0) - SplitShare(t.splits, id)
  {
    BalanceAppend(txs, [t], id);
  }

  /** Adding a payment credits its payer and debits its receiver, if it has
      one; its splits are never read. */
  lemma PaymentEffect(txs: seq<Transaction>, t: Transaction, id: string)
    requires t.kind == Payment
    ensures Balance(txs + [t], id)
         == Balance(txs, id) + (if id == t.payerId then t.amount else 0)
            - (if HasReceiver(t) && id == t.receiverId.value then t.amount else 0)
  {
    BalanceAppend(txs, [t], id);
  }

  lemma {:induction false} SplitShareUnmentioned(splits: seq<Split>, id: string)
    requires forall j :: 0 <= j < |splits| ==> splits[j].memberId != id
    ensures SplitShare(splits, id) == 0
  {
    if splits != [] {
      SplitShareUnmentioned(splits[1..], id);
    }
  }

  /** A member that no transaction mentions (or mentions only where the
      engine does not look) has balance 0. */
  lemma {:induction false} BalanceUntouched(txs: seq<Transaction>, id: string)
    requires forall i :: 0 <= i < |txs| ==> !Mentions(txs[i], id)
    ensures Balance(txs, id) == 0
  {
    if txs != [] {
      var t := txs[0];
      if t.kind == Expense {
        SplitShareUnmentioned(t.splits, id);
      }
      BalanceUntouched(txs[1..], id);
    }
  }

  /** The order of the transactions does not matter. */
  lemma {:induction false} BalancePermutation(a: seq<Transaction>, b: seq<Transaction>, id: string)
    requires multiset(a) == multiset(b)
    ensures Balance(a, id) == Balance(b, id)
    decreases |a|
  {
    if a == [] {
      assert |b| == |multiset(b)| == 0;
    } else {
      assert a[0] in multiset(b);
      var i :| 0 <= i < |b| && b[i] == a[0];
      var rest := b[..i] + b[i + 1..];
      assert b == b[..i] + [b[i]] + b[i + 1..];
      assert a == [a[0]] + a[1..];
      assert multiset(b) == multiset(b[..i]) + multiset([b[i]]) + multiset(b[i + 1..]);
      assert multiset(rest) == multiset(b[..i]) + multiset(b[i + 1..]);
      assert multiset(a) == multiset([a[0]]) + multiset(a[1..]);
      assert multiset(a[1..]) == multiset(a) - multiset([a[0]]);
      assert multiset(rest) == multiset(b) - multiset([b[i]]);
      BalancePermutation(a[1..], rest, id);
      BalanceAppend(b[..i] + [b[i]], b[i + 1..], id);
      BalanceAppend(b[..i], [b[i]], id);
      BalanceAppend(b[..i], b[i + 1..], id);
    }
  }

  /** Replacing one transaction by another with the same effect on `id`
      leaves that member's balance alone. */
  lemma BalanceReplace(txs: seq<Transaction>, i: nat, t: Transaction, id: string)
    requires i < |txs|
    requires Delta(t, id) == Delta(txs[i], id)
    ensures Balance(txs[i := t], id) == Balance(txs, id)
  {
    assert txs == txs[..i] + [txs[i]] + txs[i + 1..];
    assert txs[i := t] == txs[..i] + [t] + txs[i + 1..];
    BalanceAppend(txs[..i] + [txs[i]], txs[i + 1..], id);
    BalanceAppend(txs[..i], [txs[i]], id);
    BalanceAppend(txs[..i] + [t], txs[i + 1..], id);
    BalanceAppend(txs[..i], [t], id);
  }

  /** The splits of a payment are never read: replacing them changes no
      balance. */
  lemma PaymentSplitsIgnored(txs: seq<Transaction>, i: nat, splits: seq<Split>, id: string)
    requires i < |txs| && txs[i].kind == Payment
    ensures Balance(txs[i := txs[i].(splits := splits)], id) == Balance(txs, id)
  {
    BalanceReplace(txs, i, txs[i].(splits := splits), id);
  }

  /** A split whose member is not in `members` is dropped: adding it to an
      expense changes no member's balance. */
  lemma DanglingSplitIgnored(members: seq<Member>, txs: seq<Transaction>, i: nat, s: Split)
    requires i < |txs|
    requires forall m :: 0 <= m < |members| ==> members[m].id != s.memberId
    ensures forall m :: 0 <= m < |members| ==>
      Balance(txs[i := txs[i].(splits := txs[i].splits + [s])], members[m].id) == Balance(txs, members[m].id)
  {
    var t := txs[i].(splits := txs[i].splits + [s]);
    forall m | 0 <= m < |members|
      ensures Balance(txs[i := t], members[m].id) == Balance(txs, members[m].id)
    {
      SplitShareAppend(txs[i].splits, [s], members[m].id);
      BalanceReplace(txs, i, t, members[m].id);
    }
  }

  // ---------------------------------------------------------------------
  // Sums over all members
  // ---------------------------------------------------------------------

  /** Member ids are unique (they are primary keys of the backend). */
  predicate DistinctIds(ms: seq<Member>) {
    forall i, j :: 0 <= i < j < |ms| ==> ms[i].id != ms[j].id
  }

  function Ids(ms: seq<Member>): set<string> {
    set m | m in ms :: m.id
  }

  /** The sum of all member balances. */
  function TotalBalance(ms: seq<Member>, txs: seq<Transaction>): int {
    if ms == [] then 0 else Balance(txs, ms[0].id) + TotalBalance(ms[1..], txs)
  }

  /** The split amounts whose member is in `ids`. */
  function SplitsWithin(splits: seq<Split>, ids: set<string>): int {
    if splits == [] then 0
    else (if splits[0].memberId in ids then splits[0].splitAmount else 0) + SplitsWithin(splits[1..], ids)
  }

  /** All split amounts. */
  function SplitTotal(splits: seq<Split>): int {
    if splits == [] then 0 else splits[0].splitAmount + SplitTotal(splits[1..])
  }

  /** The net amount one transaction adds to the members in `ids`
      together: the payer side if the payer is a member, minus the debits
      that land on members. */
  function Net(t: Transaction, ids: set<string>): int {
    (if t.payerId in ids then t.amount else 0)
    - match t.kind
      case Expense => SplitsWithin(t.splits, ids)
      case Payment => if HasReceiver(t) && t.receiverId.value in ids then t.amount else 0
  }

  function LedgerNet(txs: seq<Transaction>, ids: set<string>): int {
    if txs == [] then 0 else Net(txs[0], ids) + LedgerNet(txs[1..], ids)
  }

  lemma {:induction false} SplitsWithinAdd(splits: seq<Split>, ids: set<string>, x: string)
    requires x !in ids
    ensures SplitsWithin(splits, ids + {x}) == SplitsWithin(splits, ids) + SplitShare(splits, x)
  {
    if splits != [] {
      SplitsWithinAdd(splits[1..], ids, x);
    }
  }

  lemma {:induction false} LedgerNetAdd(txs: seq<Transaction>, ids: set<string>, x: string)
    requires x !in ids
    ensures LedgerNet(txs, ids + {x}) == LedgerNet(txs, ids) + Balance(txs, x)
  {
    if txs != [] {
      if txs[0].kind == Expense {
        SplitsWithinAdd(txs[0].splits, ids, x);
      }
      LedgerNetAdd(txs[1..], ids, x);
    }
  }

  /** The sum of all balances is the net effect of every transaction on
      the member set: a side whose id is not a member contributes nothing. */
  lemma {:induction false} TotalIsLedgerNet(ms: seq<Member>, txs: seq<Transaction>)
    requires DistinctIds(ms)
    ensures TotalBalance(ms, txs) == LedgerNet(txs, Ids(ms))
  {
    if ms == [] {
      assert Ids(ms) == {};
      LedgerNetEmpty(txs);
    } else {
      assert ms == [ms[0]] + ms[1..];
      assert Ids(ms) == Ids(ms[1..]) + {ms[0].id};
      TotalIsLedgerNet(ms[1..], txs);
      LedgerNetAdd(txs, Ids(ms[1..]), ms[0].id);
    }
  }

  lemma {:induction false} LedgerNetEmpty(txs: seq<Transaction>)
    ensures LedgerNet(txs, {}) == 0
  {
    if txs != [] {
      SplitsWithinNone(txs[0].splits);
      LedgerNetEmpty(txs[1..]);
    }
  }

  lemma {:induction false} SplitsWithinNone(splits: seq<Split>)
    ensures SplitsWithin(splits, {}) == 0
  {
    if splits != [] {
      SplitsWithinNone(splits[1..]);
    }
  }

  lemma {:induction false} SplitsWithinAll(splits: seq<Split>, ids: set<string>)
    requires forall j :: 0 <= j < |splits| ==> splits[j].memberId in ids
    ensures SplitsWithin(splits, ids) == SplitTotal(splits)
  {
    if splits != [] {
      SplitsWithinAll(splits[1..], ids);
    }
  }

  /** A transaction is closed over `ids` when every id it mentions is a
      member and, for an expense, the splits add up to the amount. */
  predicate Closed(t: Transaction, ids: set<string>) {
    && t.payerId in ids
    && (t.kind == Expense ==>
          (forall j :: 0 <= j < |t.splits| ==> t.splits[j].memberId in ids)
          && SplitTotal(t.splits) == t.amount)
    && (t.kind == Payment ==> HasReceiver(t) && t.receiverId.value in ids)
  }

  lemma {:induction false} ClosedLedgerNetZero(txs: seq<Transaction>, ids: set<string>)
    requires forall i :: 0 <= i < |txs| ==> Closed(txs[i], ids)
    ensures LedgerNet(txs, ids) == 0
  {
    if txs != [] {
      if txs[0].kind == Expense {
        SplitsWithinAll(txs[0].splits, ids);
      }
      ClosedLedgerNetZero(txs[1..], ids);
    }
  }

  /** Zero sum: in a closed ledger money is conserved. */
  lemma ClosedLedgerSumsToZero(ms: seq<Member>, txs: seq<Transaction>)
    requires DistinctIds(ms)
    requires forall i :: 0 <= i < |txs| ==> Closed(txs[i], Ids(ms))
    ensures TotalBalance(ms, txs) == 0
  {
    TotalIsLedgerNet(ms, txs);
    ClosedLedgerNetZero(txs, Ids(ms));
  }

  lemma {:induction false} LedgerNetAppend(a: seq<Transaction>, b: seq<Transaction>, ids: set<string>)
    ensures LedgerNet(a + b, ids) == LedgerNet(a, ids) + LedgerNet(b, ids)
  {
    if a == [] {
      assert a + b == b;
    } else {
      assert (a + b)[1..] == a[1..] + b;
      LedgerNetAppend(a[1..], b, ids);
    }
  }

  /** Payment neutrality: a payment between two members leaves the sum of
      all balances unchanged. */
  lemma PaymentNeutral(ms: seq<Member>, txs: seq<Transaction>, t: Transaction)
    requires DistinctIds(ms)
    requires t.kind == Payment && t.payerId in Ids(ms)
    requires HasReceiver(t) && t.receiverId.value in Ids(ms)
    ensures TotalBalance(ms, txs + [t]) == TotalBalance(ms, txs)
  {
    TotalIsLedgerNet(ms, txs + [t]);
    TotalIsLedgerNet(ms, txs);
    LedgerNetAppend(txs, [t], Ids(ms));
  }

  /** Deleting the transactions with id `x` takes exactly their deltas out
      of every balance. */
  lemma {:induction false} RemovedTransactionsSubtract(txs: seq<Transaction>, x: string, id: string)
    ensures Balance(txs, id) == Balance(Filter(txs, IdIsNot(x)), id) + Balance(Filter(txs, IdIs(x)), id)
  {
    if txs != [] {
      RemovedTransactionsSubtract(txs[1..], x, id);
      var rest := txs[1..];
      if txs[0].id == x {
        assert Filter(txs, IdIsNot(x)) == Filter(rest, IdIsNot(x));
        assert Filter(txs, IdIs(x)) == [txs[0]] + Filter(rest, IdIs(x));
        BalanceAppend([txs[0]], Filter(rest, IdIs(x)), id);
      } else {
        assert Filter(txs, IdIsNot(x)) == [txs[0]] + Filter(rest, IdIsNot(x));
        assert Filter(txs, IdIs(x)) == Filter(rest, IdIs(x));
        BalanceAppend([txs[0]], Filter(rest, IdIsNot(x)), id);
      }
    }
  }

  function IdIs(x: string): Transaction -> bool {
    (t: Transaction) => t.id == x
  }

  function IdIsNot(x: string): Transaction -> bool {
    (t: Transaction) => t.id != x
  }

  // ---------------------------------------------------------------------
  // The balances view, computed as the source does: a dictionary filled
  // by nested loops, then one row per member.
  // ---------------------------------------------------------------------

  /** The body of `transactions.forEach`: applies one transaction to the
      balance dictionary, touching only keys that are already present. */
  method ApplyTransaction(raw: map<string, int>, t: Transaction) returns (next: map<string, int>)
    ensures next.Keys == raw.Keys
    ensures forall k :: k in raw ==> next[k] == raw[k] + Delta(t, k)
  {
    next := raw;
    if t.kind == Expense {
      if t.payerId in next {
        next := next[t.payerId := next[t.payerId] + t.amount];
      }
      for j := 0 to |t.splits|
        invariant next.Keys == raw.Keys
        invariant forall k :: k in next ==> next[k] == raw[k] + Credit(t, k) - SplitShare(t.splits[..j], k)
      {
        var s := t.splits[j];
        if s.memberId in next {
          next := next[s.memberId := next[s.memberId] - s.splitAmount];
        }
        forall k | k in next
          ensures SplitShare(t.splits[..j + 1], k)
               == SplitShare(t.splits[..j], k) + (if s.memberId == k then s.splitAmount else 0)
        {
          assert t.splits[..j + 1] == t.splits[..j] + [s];
          SplitShareAppend(t.splits[..j], [s], k);
        }
      }
      assert t.splits[..|t.splits|] == t.splits;
    } else {
      if t.payerId in next {
        next := next[t.payerId := next[t.payerId] + t.amount];
      }
      if HasReceiver(t) && t.receiverId.value in next {
        next := next[t.receiverId.value := next[t.receiverId.value] - t.amount];
      }
    }
  }

  /** The balances view: one row per member, in member order, carrying the
      member's fields and its balance over all transactions. */
  method ComputeBalances(members: seq<Member>, transactions: seq<Transaction>) returns (out: seq<MemberBalance>)
    ensures |out| == |members|
    ensures forall i :: 0 <= i < |members| ==>
      out[i].member == members[i] && out[i].balance == Balance(transactions, members[i].id)
  {
    var raw: map<string, int> := map[];
    for i := 0 to |members|
      invariant forall j :: 0 <= j < i ==> members[j].id in raw
      invariant forall k :: k in raw ==> raw[k] == 0
    {
      raw := raw[members[i].id := 0];
    }
    ghost var keys := raw.Keys;
    for i := 0 to |transactions|
      invariant raw.Keys == keys
      invariant forall k :: k in raw ==> raw[k] == Balance(transactions[..i], k)
    {
      var t := transactions[i];
      forall k ensures Balance(transactions[..i + 1], k) == Balance(transactions[..i], k) + Delta(t, k) {
        assert transactions[..i + 1] == transactions[..i] + [t];
        BalanceAppend(transactions[..i], [t], k);
      }
      raw := ApplyTransaction(raw, t);
    }
    assert transactions[..|transactions|] == transactions;
    out := [];
    for i := 0 to |members|
      invariant |out| == i
      invariant forall j :: 0 <= j < i ==>
        out[j].member == members[j] && out[j].balance == Balance(transactions, members[j].id)
    {
      out := out + [MemberBalance(members[i], raw[members[i].id])];
    }
  }

  // ---------------------------------------------------------------------
  // Worked ledgers
  // ---------------------------------------------------------------------

  function SampleExpense(): Transaction {
    Transaction("t1", Expense, None, 20, "a", None, None, "2024-01-01", None, "2024-01-01T00:00:00Z",
                [Split("a", 10, None), Split("b", 10, None)])
  }

  function SamplePayment(): Transaction {
    Transaction("t2", Payment, None, 10, "b", Some("a"), None, "2024-01-02", None, "2024-01-02T00:00:00Z", [])
  }

  /** An even split between two members: the payer is owed half. */
  lemma EvenSplitExample()
    ensures Balance([SampleExpense()], "a") == 10 && Balance([SampleExpense()], "b") == -10
  {
    assert SampleExpense().splits[1..] == [Split("b", 10, None)];
  }

  /** Settling with a payment brings both balances back to 0. */
  lemma SettledExample()
    ensures Balance([SampleExpense(), SamplePayment()], "a") == 0
    ensures Balance([SampleExpense(), SamplePayment()], "b") == 0
  {
    var txs := [SampleExpense(), SamplePayment()];
    assert txs[1..] == [SamplePayment()];
    assert SampleExpense().splits[1..] == [Split("b", 10, None)];
  }

  function UnderSplitExpense(): Transaction {
    Transaction("t3", Expense, None, 30, "a", None, None, "2024-01-03", None, "2024-01-03T00:00:00Z",
                [Split("a", 10, None), Split("b", 10, None)])
  }

  /** Splits that add up to less than the amount leak the difference into
      the total: the engine does not enforce that splits sum to the amount. */
  lemma UnbalancedSplitsExample()
    ensures TotalBalance([Member("a", "Alice"), Member("b", "Bob")], [UnderSplitExpense()]) == 10
  {
    var t := UnderSplitExpense();
    var ms := [Member("a", "Alice"), Member("b", "Bob")];
    assert t.splits[1..] == [Split("b", 10, None)];
    assert Balance([t], "a") == 20;
    assert Balance([t], "b") == -10;
    assert ms[1..] == [Member("b", "Bob")];
    assert TotalBalance(ms[1..], [t]) == -10;
  }

  /** With Bob no longer a member, his split is dropped and not
      redistributed: Alice's balance is still 10 and the total is 10. */
  lemma DeletedMemberExample()
    ensures TotalBalance([Member("a", "Alice")], [SampleExpense()]) == 10
  {
    assert SampleExpense().splits[1..] == [Split("b", 10, None)];
    assert Balance([SampleExpense()], "a") == 10;
  }

  // ---------------------------------------------------------------------
  // The ledger store and the local effects of its writes. Each write's
  // remote outcome is a parameter. A result of `None` is the source's
  // `undefined` (signed out, or a delete not confirmed); an insert's `None`
  // is its `null`.
  // ---------------------------------------------------------------------

  function MemberIdIs(id: string): Member -> bool {
    (m: Member) => m.id == id
  }

  function MemberIdIsNot(id: string): Member -> bool {
    (m: Member) => m.id != id
  }

  function CategoryIdIs(id: string): Category -> bool {
    (c: Category) => c.id == id
  }

  function CategoryIdIsNot(id: string): Category -> bool {
    (c: Category) => c.id != id
  }

  class Ledger {
    var members: seq<Member>
    var categories: seq<Category>
    var transactions: seq<Transaction>

    constructor ()
      ensures members == [] && categories == [] && transactions == []
    {
      members, categories, transactions := [], [], [];
    }

    /** `addMember`: the row the backend returned (None on error) is
        appended and returned. */
    method AddMember(inserted: Option<Member>) returns (r: Option<Member>)
      modifies this
      ensures r == inserted
      ensures members == old(members) + (if inserted.Some? then [inserted.value] else [])
      ensures categories == old(categories) && transactions == old(transactions)
    {
      r := inserted;
      if inserted.Some? {
        members := members + [inserted.value];
      }
    }

    /** `updateMember`: signed out, nothing happens and the result is
        undefined; after a successful write, the first member with the id is
        renamed; nothing else changes. */
    method UpdateMember(id: string, name: string, signedIn: bool, ok: bool) returns (r: Option<bool>)
      modifies this
      ensures r == if signedIn then Some(ok) else None
      ensures var k := FindIndex(old(members), MemberIdIs(id));
              members == if signedIn && ok && k >= 0 then old(members)[k := old(members)[k].(name := name)] else old(members)
      ensures categories == old(categories) && transactions == old(transactions)
    {
      if !signedIn {
        return None;
      }
      if !ok {
        return Some(false);
      }
      var k := FindIndex(members, MemberIdIs(id));
      if k >= 0 {
        members := members[k := members[k].(name := name)];
      }
      r := Some(true);
    }

    /** `deleteMember`: not confirmed, nothing happens and the result is
        undefined; after a successful write every member with the id is
        removed; the transactions that mention it stay. */
    method DeleteMember(id: string, confirmed: bool, ok: bool) returns (r: Option<bool>)
      modifies this
      ensures r == if confirmed then Some(ok) else None
      ensures members == if confirmed && ok then Filter(old(members), MemberIdIsNot(id)) else old(members)
      ensures categories == old(categories) && transactions == old(transactions)
    {
      if !confirmed {
        return None;
      }
      if !ok {
        return Some(false);
      }
      members := Filter(members, MemberIdIsNot(id));
      r := Some(true);
    }

    /** `addCategory`: the returned row is appended. */
    method AddCategory(inserted: Option<Category>) returns (r: Option<Category>)
      modifies this
      ensures r == inserted
      ensures categories == old(categories) + (if inserted.Some? then [inserted.value] else [])
      ensures members == old(members) && transactions == old(transactions)
    {
      r := inserted;
      if inserted.Some? {
        categories := categories + [inserted.value];
      }
    }

    /** `updateCategory`: signed out, nothing happens and the result is
        undefined; after success the first category with the id takes the
        new name and icon (an omitted icon clears it). */
    method UpdateCategory(id: string, name: string, icon: Option<string>, signedIn: bool, ok: bool) returns (r: Option<bool>)
      modifies this
      ensures r == if signedIn then Some(ok) else None
      ensures var k := FindIndex(old(categories), CategoryIdIs(id));
              categories == if signedIn && ok && k >= 0 then old(categories)[k := old(categories)[k].(name := name, icon := icon)]
                            else old(categories)
      ensures members == old(members) && transactions == old(transactions)
    {
      if !signedIn {
        return None;
      }
      if !ok {
        return Some(false);
      }
      var k := FindIndex(categories, CategoryIdIs(id));
      if k >= 0 {
        categories := categories[k := categories[k].(name := name, icon := icon)];
      }
      r := Some(true);
    }

    /** `deleteCategory`: not confirmed, nothing happens and the result is
        undefined; after success every category with the id is removed. */
    method DeleteCategory(id: string, confirmed: bool, ok: bool) returns (r: Option<bool>)
      modifies this
      ensures r == if confirmed then Some(ok) else None
      ensures categories == if confirmed && ok then Filter(old(categories), CategoryIdIsNot(id)) else old(categories)
      ensures members == old(members) && transactions == old(transactions)
    {
      if !confirmed {
        return None;
      }
      if !ok {
        return Some(false);
      }
      categories := Filter(categories, CategoryIdIsNot(id));
      r := Some(true);
    }

    /** `deleteTransaction`: on success every transaction with the id is
        dropped; see RemovedTransactionsSubtract for the effect on balances. */
    method DeleteTransaction(id: string, ok: bool)
      modifies this
      ensures transactions == if ok then Filter(old(transactions), IdIsNot(id)) else old(transactions)
      ensures members == old(members) && categories == old(categories)
    {
      if ok {
        transactions := Filter(transactions, IdIsNot(id));
      }
    }
  }
}
