/**
 * The records the engine reads and the three read-only queries it issues:
 * load a transaction by id, count a user's transactions since an instant, and
 * sum their amounts since an instant. The transaction table is a sequence of
 * records in storage order; the configuration table maps a user id to that
 * user's single row.
 */
module Store {
  import opened Wrappers
  import opened Calendar

  /** A stored payment. Amounts are exact reals; the stored status and metadata are not read by the engine. */
  datatype Transaction = Transaction(
    id: int,
    userId: int,
    amount: real,
    currency: string,
    country: Option<string>,
    createdAt: Timestamp)

  /** A stored per-user configuration row; every column may be null. */
  datatype UserRuleConfig = UserRuleConfig(
    maxTransactionAmount: Option<real>,
    maxTransactionsPerHour: Option<int>,
    monthlySpendingLimit: Option<real>,
    blockedCountries: Option<seq<string>>)

  /** The part of the database the engine reads. */
  datatype Database = Database(transactions: seq<Transaction>, configs: map<int, UserRuleConfig>)

  /** What the schemas guarantee of every stored transaction: a positive amount, and ids are a primary key. */
  ghost predicate ValidTransactions(txs: seq<Transaction>) {
    && (forall k :: 0 <= k < |txs| ==> txs[k].amount > 0.0)
    && (forall j, k :: 0 <= j < k < |txs| ==> txs[j].id != txs[k].id)
  }

  /** `SELECT ... WHERE id = ?`, the row with that id if there is one. */
  function FindTransaction(txs: seq<Transaction>, id: int): (r: Option<Transaction>)
    ensures r.None? <==> forall k :: 0 <= k < |txs| ==> txs[k].id != id
    ensures r.Some? ==> r.value in txs && r.value.id == id
  {
    if txs == [] then None
    else if txs[0].id == id then Some(txs[0])
    else FindTransaction(txs[1..], id)
  }

  /** With unique ids, the lookup returns the one record carrying the id. */
  lemma {:induction false} FindTransactionUnique(txs: seq<Transaction>, k: nat)
    requires ValidTransactions(txs) && k < |txs|
    ensures FindTransaction(txs, txs[k].id) == Some(txs[k])
  {
    if k > 0 {
      assert txs[0].id != txs[k].id;
      assert ValidTransactions(txs[1..]) by {
        forall j, i | 0 <= j < i < |txs[1..]| ensures txs[1..][j].id != txs[1..][i].id {
          assert txs[1..][j] == txs[j + 1] && txs[1..][i] == txs[i + 1];
        }
      }
      FindTransactionUnique(txs[1..], k - 1);
    }
  }

  predicate InWindow(t: Transaction, userId: int, since: int) {
    t.userId == userId && t.createdAt >= since
  }

  /** The rows a `WHERE user_id = ? AND created_at >= ?` clause selects, in storage order. */
  function Matching(txs: seq<Transaction>, userId: int, since: int): (r: seq<Transaction>)
    ensures |r| <= |txs|
    ensures forall t :: t in r <==> t in txs && InWindow(t, userId, since)
  {
    if txs == [] then []
    else if InWindow(txs[0], userId, since) then [txs[0]] + Matching(txs[1..], userId, since)
    else Matching(txs[1..], userId, since)
  }

  /** The sum of the amounts; 0 for no rows, as `COALESCE(SUM(amount), 0)` gives. */
  function Total(txs: seq<Transaction>): real {
    if txs == [] then 0.0 else txs[0].amount + Total(txs[1..])
  }

  /** `SELECT COUNT(id) ... WHERE user_id = ? AND created_at >= ?`. */
  function CountSince(txs: seq<Transaction>, userId: int, since: int): nat {
    |Matching(txs, userId, since)|
  }

  /** `SELECT COALESCE(SUM(amount), 0) ... WHERE user_id = ? AND created_at >= ?`. */
  function SumSince(txs: seq<Transaction>, userId: int, since: int): real {
    Total(Matching(txs, userId, since))
  }

  lemma {:induction false} MatchingAppend(a: seq<Transaction>, b: seq<Transaction>, userId: int, since: int)
    ensures Matching(a + b, userId, since) == Matching(a, userId, since) + Matching(b, userId, since)
  {
    if a == [] {
      assert a + b == b;
    } else {
      assert (a + b)[1..] == a[1..] + b;
      MatchingAppend(a[1..], b, userId, since);
    }
  }

  lemma {:induction false} TotalAppend(a: seq<Transaction>, b: seq<Transaction>)
    ensures Total(a + b) == Total(a) + Total(b)
  {
    if a == [] {
      assert a + b == b;
    } else {
      assert (a + b)[1..] == a[1..] + b;
      TotalAppend(a[1..], b);
    }
  }

  /** The count and the sum split over two parts of the table. */
  lemma QueriesAppend(a: seq<Transaction>, b: seq<Transaction>, userId: int, since: int)
    ensures CountSince(a + b, userId, since) == CountSince(a, userId, since) + CountSince(b, userId, since)
    ensures SumSince(a + b, userId, since) == SumSince(a, userId, since) + SumSince(b, userId, since)
  {
    MatchingAppend(a, b, userId, since);
    TotalAppend(Matching(a, userId, since), Matching(b, userId, since));
  }

  /** A stored record inside the window adds one to the count and its own amount to the sum. */
  lemma StoredRecordCounted(txs: seq<Transaction>, k: nat, since: int)
    requires k < |txs| && InWindow(txs[k], txs[k].userId, since)
    ensures CountSince(txs, txs[k].userId, since) == 1 + CountSince(txs[..k] + txs[k + 1..], txs[k].userId, since)
    ensures SumSince(txs, txs[k].userId, since) == txs[k].amount + SumSince(txs[..k] + txs[k + 1..], txs[k].userId, since)
  {
    var u := txs[k].userId;
    assert txs == txs[..k] + ([txs[k]] + txs[k + 1..]);
    QueriesAppend(txs[..k], [txs[k]] + txs[k + 1..], u, since);
    QueriesAppend([txs[k]], txs[k + 1..], u, since);
    QueriesAppend(txs[..k], txs[k + 1..], u, since);
    assert Matching([txs[k]], u, since) == [txs[k]];
  }

  /** A record outside the window changes neither the count nor the sum. */
  lemma RecordOutsideWindowIgnored(txs: seq<Transaction>, t: Transaction, userId: int, since: int)
    requires !InWindow(t, userId, since)
    ensures CountSince(txs + [t], userId, since) == CountSince(txs, userId, since)
    ensures SumSince(txs + [t], userId, since) == SumSince(txs, userId, since)
  {
    QueriesAppend(txs, [t], userId, since);
    assert Matching([t], userId, since) == [];
  }

  lemma {:induction false} TotalNonNegative(txs: seq<Transaction>)
    requires forall k :: 0 <= k < |txs| ==> txs[k].amount > 0.0
    ensures Total(txs) >= 0.0
  {
    if txs != [] {
      TotalNonNegative(txs[1..]);
    }
  }

  /** With positive amounts, a stored record in the window contributes at least its own amount. */
  lemma SumCoversStoredRecord(txs: seq<Transaction>, k: nat, since: int)
    requires ValidTransactions(txs) && k < |txs| && InWindow(txs[k], txs[k].userId, since)
    ensures SumSince(txs, txs[k].userId, since) >= txs[k].amount
    ensures CountSince(txs, txs[k].userId, since) >= 1
  {
    var u := txs[k].userId;
    var rest := txs[..k] + txs[k + 1..];
    StoredRecordCounted(txs, k, since);
    var m := Matching(rest, u, since);
    forall j | 0 <= j < |m| ensures m[j].amount > 0.0 {
      assert m[j] in rest;
    }
    TotalNonNegative(m);
  }

  /** Narrowing the window (a later start) never raises the count. */
  lemma {:induction false} CountSinceAntitone(txs: seq<Transaction>, userId: int, s1: int, s2: int)
    requires s1 <= s2
    ensures CountSince(txs, userId, s2) <= CountSince(txs, userId, s1)
  {
    if txs != [] {
      CountSinceAntitone(txs[1..], userId, s1, s2);
    }
  }

  /** When every row lies in the window, the count is the number of rows. */
  lemma {:induction false} AllInWindowCounted(txs: seq<Transaction>, userId: int, since: int)
    requires forall i :: 0 <= i < |txs| ==> InWindow(txs[i], userId, since)
    ensures CountSince(txs, userId, since) == |txs|
  {
    if txs != [] {
      AllInWindowCounted(txs[1..], userId, since);
    }
  }

  /** The queries over a table holding one record. */
  lemma SingleRecordQueries(t: Transaction, userId: int, since: int)
    ensures CountSince([t], userId, since) == if InWindow(t, userId, since) then 1 else 0
    ensures SumSince([t], userId, since) == if InWindow(t, userId, since) then t.amount else 0.0
  {
    assert [t][1..] == [];
    assert Total([t]) == [t][0].amount + Total([t][1..]);
  }
}
