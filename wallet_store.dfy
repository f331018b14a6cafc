/**
 * The wallets table and the batch generator that fills it (wallet_generator.py).
 *
 * The table is `wallets(id INTEGER PRIMARY KEY AUTOINCREMENT, address TEXT UNIQUE
 * NOT NULL, private_key TEXT NOT NULL, ...)`; it is modelled as the sequence of its
 * rows in id order. Key generation (`Account.create`) is an input sequence of
 * (address, key) pairs; the sqlite connection is replaced by the object's fields.
 */
module WalletStore {
  import opened Prelude

  /** One row of the wallets table (created_at is not modelled). */
  datatype Row = Row(id: int, address: string, privateKey: string)

  /** A generated account, as `(account.address, account.key.hex())`. */
  datatype KeyPair = KeyPair(address: string, privateKey: string)

  /** The UNIQUE constraint on `address`. */
  predicate UniqueAddresses(rows: seq<Row>) {
    forall i, j :: 0 <= i < j < |rows| ==> rows[i].address != rows[j].address
  }

  /** Rows listed in ascending id order, as `ORDER BY id` reads them. */
  predicate IdsAscending(rows: seq<Row>) {
    forall i, j :: 0 <= i < j < |rows| ==> rows[i].id < rows[j].id
  }

  function AddressesOf(rows: seq<Row>): set<string> {
    set i | 0 <= i < |rows| :: rows[i].address
  }

  function KeyAddresses(pairs: seq<KeyPair>): set<string> {
    set i | 0 <= i < |pairs| :: pairs[i].address
  }

  predicate DistinctAddresses(pairs: seq<KeyPair>) {
    forall i, j :: 0 <= i < j < |pairs| ==> pairs[i].address != pairs[j].address
  }

  lemma KeyAddressesConcat(x: seq<KeyPair>, y: seq<KeyPair>)
    ensures KeyAddresses(x + y) == KeyAddresses(x) + KeyAddresses(y)
  {
    var xy := x + y;
    forall a | a in KeyAddresses(xy) ensures a in KeyAddresses(x) + KeyAddresses(y) {
      var i :| 0 <= i < |xy| && xy[i].address == a;
      if i >= |x| { assert y[i - |x|] == xy[i]; }
    }
    forall a | a in KeyAddresses(x) + KeyAddresses(y) ensures a in KeyAddresses(xy) {
      if a in KeyAddresses(x) {
        var i :| 0 <= i < |x| && x[i].address == a;
        assert xy[i] == x[i];
      } else {
        var i :| 0 <= i < |y| && y[i].address == a;
        assert xy[|x| + i] == y[i];
      }
    }
  }

  /**
   * The pairs of `batch` that `INSERT OR IGNORE` stores when the table already holds
   * the addresses `present`: a pair is ignored when its address is present or was
   * stored by an earlier pair of the same batch.
   */
  function InsertedPairs(present: set<string>, batch: seq<KeyPair>): (added: seq<KeyPair>)
    ensures |added| <= |batch|
    decreases |batch|
  {
    if batch == [] then []
    else if batch[0].address in present then InsertedPairs(present, batch[1..])
    else [batch[0]] + InsertedPairs(present + {batch[0].address}, batch[1..])
  }

  /**
   * What `INSERT OR IGNORE` stores: pairs of the batch, none whose address was present,
   * no address twice, and every address of the batch that was not present.
   */
  lemma {:induction false} InsertedPairsSound(present: set<string>, batch: seq<KeyPair>)
    ensures var added := InsertedPairs(present, batch);
      && (forall i :: 0 <= i < |added| ==> added[i] in batch && added[i].address !in present)
      && DistinctAddresses(added)
      && KeyAddresses(added) == KeyAddresses(batch) - present
    decreases |batch|
  {
    if batch != [] {
      var rest := batch[1..];
      assert batch == [batch[0]] + rest;
      KeyAddressesConcat([batch[0]], rest);
      assert KeyAddresses([batch[0]]) == {batch[0].address};
      if batch[0].address in present {
        InsertedPairsSound(present, rest);
      } else {
        var tail := InsertedPairs(present + {batch[0].address}, rest);
        InsertedPairsSound(present + {batch[0].address}, rest);
        KeyAddressesConcat([batch[0]], tail);
        assert InsertedPairs(present, batch) == [batch[0]] + tail;
      }
    }
  }

  /** The position of the first pair of `batch` with `address`. */
  function FirstIndex(batch: seq<KeyPair>, address: string): (j: nat)
    requires address in KeyAddresses(batch)
    ensures j < |batch| && batch[j].address == address
    ensures forall k :: 0 <= k < j ==> batch[k].address != address
    decreases |batch|
  {
    if batch[0].address == address then 0
    else
      var i :| 0 <= i < |batch| && batch[i].address == address;
      assert batch[1..][i - 1] == batch[i];
      var j := FirstIndex(batch[1..], address);
      assert forall k :: 1 <= k <= j ==> batch[k] == batch[1..][k - 1];
      1 + j
  }

  /** Past a first pair with another address, the first position of `address` moves up by one. */
  lemma FirstIndexInRest(batch: seq<KeyPair>, address: string)
    requires batch != [] && batch[0].address != address
    requires address in KeyAddresses(batch[1..])
    ensures address in KeyAddresses(batch)
    ensures FirstIndex(batch, address) == 1 + FirstIndex(batch[1..], address)
  {
    var i :| 0 <= i < |batch[1..]| && batch[1..][i].address == address;
    assert batch[i + 1] == batch[1..][i];
  }

  /** Every pair of `added` is the first pair of `batch` with its address. */
  predicate FirstPairsOf(batch: seq<KeyPair>, added: seq<KeyPair>) {
    forall i :: 0 <= i < |added| ==>
      added[i].address in KeyAddresses(batch) && added[i] == batch[FirstIndex(batch, added[i].address)]
  }

  /** The pairs of `added` come in the order their first occurrences have in `batch`. */
  predicate InBatchOrder(batch: seq<KeyPair>, added: seq<KeyPair>)
    requires FirstPairsOf(batch, added)
  {
    forall i, k :: 0 <= i < k < |added| ==>
      FirstIndex(batch, added[i].address) < FirstIndex(batch, added[k].address)
  }

  /** Pairs taken from the rest of `batch`, none with the first pair's address, keep both properties one position up. */
  lemma FirstPairsOfRest(batch: seq<KeyPair>, tail: seq<KeyPair>)
    requires batch != []
    requires FirstPairsOf(batch[1..], tail) && InBatchOrder(batch[1..], tail)
    requires forall i :: 0 <= i < |tail| ==> tail[i].address != batch[0].address
    ensures FirstPairsOf(batch, tail) && InBatchOrder(batch, tail)
    ensures forall i :: 0 <= i < |tail| ==> FirstIndex(batch, tail[i].address) > 0
  {
    forall i | 0 <= i < |tail|
      ensures tail[i].address in KeyAddresses(batch)
      ensures FirstIndex(batch, tail[i].address) == 1 + FirstIndex(batch[1..], tail[i].address)
    {
      FirstIndexInRest(batch, tail[i].address);
    }
  }

  /** Putting the first pair of `batch` in front of such pairs keeps both properties. */
  lemma FirstPairsOfCons(batch: seq<KeyPair>, tail: seq<KeyPair>)
    requires batch != []
    requires FirstPairsOf(batch, tail) && InBatchOrder(batch, tail)
    requires forall i :: 0 <= i < |tail| ==> FirstIndex(batch, tail[i].address) > 0
    ensures FirstPairsOf(batch, [batch[0]] + tail) && InBatchOrder(batch, [batch[0]] + tail)
  {
    var added := [batch[0]] + tail;
    assert batch[0].address in KeyAddresses(batch);
    forall i | 0 <= i < |added|
      ensures added[i].address in KeyAddresses(batch) && added[i] == batch[FirstIndex(batch, added[i].address)]
    {
      if i > 0 { assert added[i] == tail[i - 1]; }
    }
    forall i, k | 0 <= i < k < |added|
      ensures FirstIndex(batch, added[i].address) < FirstIndex(batch, added[k].address)
    {
      assert added[k] == tail[k - 1];
      if i > 0 { assert added[i] == tail[i - 1]; }
    }
  }

  /**
   * Of the pairs that share an address, `INSERT OR IGNORE` keeps the first one, key
   * included, and it stores the kept pairs in batch order, which decides their ids.
   */
  lemma {:induction false} InsertedPairsKeepFirst(present: set<string>, batch: seq<KeyPair>)
    ensures FirstPairsOf(batch, InsertedPairs(present, batch))
    ensures InBatchOrder(batch, InsertedPairs(present, batch))
    decreases |batch|
  {
    if batch != [] {
      var b, rest := batch[0], batch[1..];
      if b.address in present {
        InsertedPairsKeepFirst(present, rest);
        InsertedPairsSound(present, rest);
        FirstPairsOfRest(batch, InsertedPairs(present, rest));
      } else {
        var tail := InsertedPairs(present + {b.address}, rest);
        InsertedPairsKeepFirst(present + {b.address}, rest);
        InsertedPairsSound(present + {b.address}, rest);
        FirstPairsOfRest(batch, tail);
        FirstPairsOfCons(batch, tail);
      }
    }
  }

  /**
   * The rows `INSERT OR IGNORE` adds for `batch` when the AUTOINCREMENT counter stands at
   * `firstId`. Every statement takes the next id before the UNIQUE check, so a pair that
   * is ignored still uses up its id and leaves a gap.
   */
  function InsertedRows(present: set<string>, batch: seq<KeyPair>, firstId: int): (rows: seq<Row>)
    ensures |rows| <= |batch|
    decreases |batch|
  {
    if batch == [] then []
    else if batch[0].address in present then InsertedRows(present, batch[1..], firstId + 1)
    else [Row(firstId, batch[0].address, batch[0].privateKey)]
         + InsertedRows(present + {batch[0].address}, batch[1..], firstId + 1)
  }

  /** The address and key of each row. */
  function Pairs(rows: seq<Row>): seq<KeyPair> {
    seq(|rows|, i requires 0 <= i < |rows| => KeyPair(rows[i].address, rows[i].privateKey))
  }

  /** The rows added hold exactly the pairs `INSERT OR IGNORE` stores, in the same order. */
  lemma {:induction false} InsertedRowsPairs(present: set<string>, batch: seq<KeyPair>, firstId: int)
    ensures Pairs(InsertedRows(present, batch, firstId)) == InsertedPairs(present, batch)
    decreases |batch|
  {
    if batch != [] {
      var b, rest := batch[0], batch[1..];
      if b.address in present {
        InsertedRowsPairs(present, rest, firstId + 1);
      } else {
        var tail := InsertedRows(present + {b.address}, rest, firstId + 1);
        InsertedRowsPairs(present + {b.address}, rest, firstId + 1);
        var rows := [Row(firstId, b.address, b.privateKey)] + tail;
        assert Pairs(rows) == [b] + Pairs(tail) by {
          forall i | 0 <= i < |rows| ensures Pairs(rows)[i] == ([b] + Pairs(tail))[i] {
            if i > 0 { assert rows[i] == tail[i - 1]; }
          }
        }
      }
    }
  }

  /** The ids of the added rows ascend and lie in `[firstId, firstId + |batch|)`. */
  lemma {:induction false} InsertedRowsIds(present: set<string>, batch: seq<KeyPair>, firstId: int)
    ensures var rows := InsertedRows(present, batch, firstId);
      && (forall i :: 0 <= i < |rows| ==> firstId <= rows[i].id < firstId + |batch|)
      && IdsAscending(rows)
    decreases |batch|
  {
    if batch != [] {
      var b, rest := batch[0], batch[1..];
      if b.address in present {
        InsertedRowsIds(present, rest, firstId + 1);
      } else {
        var tail := InsertedRows(present + {b.address}, rest, firstId + 1);
        InsertedRowsIds(present + {b.address}, rest, firstId + 1);
        var rows := [Row(firstId, b.address, b.privateKey)] + tail;
        forall i | 0 < i < |rows| ensures rows[i] == tail[i - 1] {
        }
      }
    }
  }

  /**
   * Each added row carries the id of its statement: `firstId` plus the position of the
   * first pair of the batch with its address.
   */
  lemma {:induction false} InsertedRowsAtStatements(present: set<string>, batch: seq<KeyPair>, firstId: int)
    ensures var rows := InsertedRows(present, batch, firstId);
      forall i :: 0 <= i < |rows| ==>
        rows[i].address in KeyAddresses(batch) && rows[i].id == firstId + FirstIndex(batch, rows[i].address)
    decreases |batch|
  {
    if batch != [] {
      var b := batch[0];
      var present' := if b.address in present then present else present + {b.address};
      InsertedRowsAtStatements(present', batch[1..], firstId + 1);
      TailAtStatements(present', batch, firstId);
      if b.address !in present {
        var tail := InsertedRows(present', batch[1..], firstId + 1);
        var rows := [Row(firstId, b.address, b.privateKey)] + tail;
        assert b.address in KeyAddresses(batch) by { assert batch[0] == b; }
        forall i | 0 < i < |rows| ensures rows[i] == tail[i - 1] {
        }
      }
    }
  }

  /** The step of `InsertedRowsAtStatements`: the rows the rest of the batch adds keep their statements' ids. */
  lemma TailAtStatements(present: set<string>, batch: seq<KeyPair>, firstId: int)
    requires batch != [] && batch[0].address in present
    requires var tail := InsertedRows(present, batch[1..], firstId + 1);
      forall i :: 0 <= i < |tail| ==>
        tail[i].address in KeyAddresses(batch[1..]) && tail[i].id == firstId + 1 + FirstIndex(batch[1..], tail[i].address)
    ensures var tail := InsertedRows(present, batch[1..], firstId + 1);
      forall i :: 0 <= i < |tail| ==>
        tail[i].address in KeyAddresses(batch) && tail[i].id == firstId + FirstIndex(batch, tail[i].address)
  {
    var rest := batch[1..];
    var tail := InsertedRows(present, rest, firstId + 1);
    InsertedRowsFit(present, rest, firstId + 1);
    forall i | 0 <= i < |tail|
      ensures tail[i].address in KeyAddresses(batch)
      ensures tail[i].id == firstId + FirstIndex(batch, tail[i].address)
    {
      FirstIndexInRest(batch, tail[i].address);
    }
  }

  /** The facts about the added rows that keep the table valid. */
  lemma InsertedRowsFit(present: set<string>, batch: seq<KeyPair>, firstId: int)
    ensures var rows := InsertedRows(present, batch, firstId);
      && |rows| == |InsertedPairs(present, batch)|
      && UniqueAddresses(rows) && IdsAscending(rows)
      && (forall i :: 0 <= i < |rows| ==> rows[i].address !in present)
      && (forall i :: 0 <= i < |rows| ==> firstId <= rows[i].id < firstId + |batch|)
      && AddressesOf(rows) == KeyAddresses(batch) - present
  {
    var rows := InsertedRows(present, batch, firstId);
    InsertedRowsPairs(present, batch, firstId);
    InsertedRowsIds(present, batch, firstId);
    InsertedPairsSound(present, batch);
    var pairs := Pairs(rows);
    assert forall i :: 0 <= i < |rows| ==> rows[i].address == pairs[i].address;
    AddressesOfPairs(rows);
  }

  lemma AddressesOfPairs(rows: seq<Row>)
    ensures AddressesOf(rows) == KeyAddresses(Pairs(rows))
  {
    var pairs := Pairs(rows);
    forall a | a in AddressesOf(rows) ensures a in KeyAddresses(pairs) {
      var i :| 0 <= i < |rows| && rows[i].address == a;
      assert pairs[i].address == a;
    }
    forall a | a in KeyAddresses(pairs) ensures a in AddressesOf(rows) {
      var i :| 0 <= i < |pairs| && pairs[i].address == a;
      assert rows[i].address == a;
    }
  }

  /** The number of rows a batch adds is the number of its distinct addresses not yet in the table. */
  lemma {:induction false} InsertedCount(present: set<string>, batch: seq<KeyPair>)
    ensures |InsertedPairs(present, batch)| == |KeyAddresses(batch) - present|
    decreases |batch|
  {
    if batch != [] {
      var a, rest := batch[0].address, batch[1..];
      assert batch == [batch[0]] + rest;
      KeyAddressesConcat([batch[0]], rest);
      assert KeyAddresses([batch[0]]) == {a};
      if a in present {
        assert KeyAddresses(batch) - present == KeyAddresses(rest) - present;
        InsertedCount(present, rest);
      } else {
        InsertedCount(present + {a}, rest);
        var later := KeyAddresses(rest) - (present + {a});
        assert KeyAddresses(batch) - present == {a} + later;
        assert a !in later;
      }
    }
  }

  /** Inserting two batches one after the other stores what inserting their concatenation stores. */
  lemma {:induction false} InsertedPairsAppend(present: set<string>, a: seq<KeyPair>, b: seq<KeyPair>)
    ensures InsertedPairs(present, a + b)
         == InsertedPairs(present, a) + InsertedPairs(present + KeyAddresses(a), b)
    decreases |a|
  {
    if a == [] {
      assert a + b == b;
      assert KeyAddresses(a) == {};
      assert present + KeyAddresses(a) == present;
    } else {
      var x, rest := a[0], a[1..];
      assert a + b == [x] + (rest + b);
      assert (a + b)[1..] == rest + b;
      assert a == [x] + rest;
      KeyAddressesConcat([x], rest);
      assert KeyAddresses([x]) == {x.address};
      if x.address in present {
        InsertedPairsAppend(present, rest, b);
        assert present + KeyAddresses(a) == present + KeyAddresses(rest);
      } else {
        InsertedPairsAppend(present + {x.address}, rest, b);
        assert present + {x.address} + KeyAddresses(rest) == present + KeyAddresses(a);
      }
    }
  }

  /** Inserting two batches one after the other adds the rows inserting their concatenation adds. */
  lemma {:induction false} InsertedRowsAppend(present: set<string>, a: seq<KeyPair>, b: seq<KeyPair>, firstId: int)
    ensures InsertedRows(present, a + b, firstId)
         == InsertedRows(present, a, firstId) + InsertedRows(present + KeyAddresses(a), b, firstId + |a|)
    decreases |a|
  {
    if a == [] {
      assert a + b == b;
      assert KeyAddresses(a) == {};
      assert present + KeyAddresses(a) == present;
    } else {
      var x, rest := a[0], a[1..];
      assert (a + b)[1..] == rest + b;
      assert a == [x] + rest;
      KeyAddressesConcat([x], rest);
      assert KeyAddresses([x]) == {x.address};
      if x.address in present {
        InsertedRowsAppend(present, rest, b, firstId + 1);
        assert present + KeyAddresses(a) == present + KeyAddresses(rest);
      } else {
        InsertedRowsAppend(present + {x.address}, rest, b, firstId + 1);
        assert present + {x.address} + KeyAddresses(rest) == present + KeyAddresses(a);
      }
    }
  }

  lemma AddressesOfAppend(rows: seq<Row>, extra: seq<Row>)
    ensures AddressesOf(rows + extra) == AddressesOf(rows) + AddressesOf(extra)
  {
    var grown := rows + extra;
    forall a | a in AddressesOf(grown)
      ensures a in AddressesOf(rows) + AddressesOf(extra)
    {
      var i :| 0 <= i < |grown| && grown[i].address == a;
      if i >= |rows| {
        assert grown[i] == extra[i - |rows|];
      } else {
        assert grown[i] == rows[i];
      }
    }
    forall a | a in AddressesOf(rows) + AddressesOf(extra)
      ensures a in AddressesOf(grown)
    {
      if a in AddressesOf(rows) {
        var i :| 0 <= i < |rows| && rows[i].address == a;
        assert grown[i] == rows[i];
      } else {
        var i :| 0 <= i < |extra| && extra[i].address == a;
        assert grown[|rows| + i] == extra[i];
      }
    }
  }

  /**
   * Appending rows with fresh, distinct addresses and ascending ids from the counter on
   * keeps the table's invariants: addresses stay unique, ids stay ascending and below
   * the new counter.
   */
  lemma AppendKeepsTableValid(rows: seq<Row>, nextId: int, extra: seq<Row>, nextId': int)
    requires UniqueAddresses(rows) && IdsAscending(rows)
    requires forall i :: 0 <= i < |rows| ==> rows[i].id < nextId
    requires UniqueAddresses(extra) && IdsAscending(extra)
    requires forall i :: 0 <= i < |extra| ==> extra[i].address !in AddressesOf(rows)
    requires forall i :: 0 <= i < |extra| ==> nextId <= extra[i].id < nextId'
    requires nextId <= nextId'
    ensures var grown := rows + extra;
      && UniqueAddresses(grown) && IdsAscending(grown)
      && (forall i :: 0 <= i < |grown| ==> grown[i].id < nextId')
  {
    var grown := rows + extra;
    forall i, j | 0 <= i < j < |grown|
      ensures grown[i].address != grown[j].address && grown[i].id < grown[j].id
    {
      if j >= |rows| && i < |rows| {
        assert grown[j] == extra[j - |rows|];
        assert grown[i] == rows[i];
      } else if i >= |rows| {
        assert grown[i] == extra[i - |rows|] && grown[j] == extra[j - |rows|];
      }
    }
    forall i | 0 <= i < |grown| ensures grown[i].id < nextId' {
      if i >= |rows| { assert grown[i] == extra[i - |rows|]; }
    }
  }

  /** The outcome of the argument checks of `main`, in the order they are made. */
  datatype ArgumentCheck = ArgumentsValid | CountNotPositive | BatchSizeNotPositive

  /** `main` refuses a non-positive count first, then a non-positive batch size. */
  function ValidateArguments(count: int, batchSize: int): (r: ArgumentCheck)
    ensures r == ArgumentsValid <==> count > 0 && batchSize > 0
    ensures count <= 0 ==> r == CountNotPositive
    ensures count > 0 && batchSize <= 0 ==> r == BatchSizeNotPositive
  {
    if count <= 0 then CountNotPositive
    else if batchSize <= 0 then BatchSizeNotPositive
    else ArgumentsValid
  }

  /** The running totals `processed` takes after each batch. */
  function RunningTotals(sizes: seq<int>): (totals: seq<int>)
    ensures |totals| == |sizes|
  {
    if sizes == [] then [] else RunningTotals(sizes[..|sizes| - 1]) + [Sum(sizes)]
  }

  /** The elements of `s` that are multiples of `m`, in order. */
  function MultiplesOf(s: seq<int>, m: int): (r: seq<int>)
    requires m > 0
    ensures |r| <= |s|
  {
    if s == [] then []
    else
      var last := s[|s| - 1];
      MultiplesOf(s[..|s| - 1], m) + (if last % m == 0 then [last] else [])
  }

  /** The kept elements are exactly the elements of `s` that `m` divides. */
  lemma {:induction false} MultiplesOfMembers(s: seq<int>, m: int)
    requires m > 0
    ensures forall x :: x in MultiplesOf(s, m) <==> x in s && x % m == 0
  {
    if s != [] {
      var front, last := s[..|s| - 1], s[|s| - 1];
      MultiplesOfMembers(front, m);
      assert s == front + [last];
    }
  }

  /** One batch of the generation loop, without errors, extends the table by the next keys' rows. */
  lemma InsertStepExtendsTable(initial: seq<Row>, firstId: int, keys: seq<KeyPair>, processed: nat, current: nat,
                               before: seq<Row>, beforeId: int, after: seq<Row>, afterId: int)
    requires processed + current <= |keys|
    requires Tracks(before, beforeId, initial, firstId, keys[..processed])
    requires after == before + InsertedRows(AddressesOf(before), keys[processed..processed + current], beforeId)
    requires afterId == beforeId + current
    ensures Tracks(after, afterId, initial, firstId, keys[..processed + current])
  {
    var present := AddressesOf(initial);
    var done := keys[..processed];
    var batch := keys[processed..processed + current];
    var first := InsertedRows(present, done, firstId);
    assert keys[..processed + current] == done + batch;
    InsertedRowsAppend(present, done, batch, firstId);
    assert AddressesOf(before) == present + KeyAddresses(done) by {
      InsertedRowsFit(present, done, firstId);
      AddressesOfAppend(initial, first);
    }
  }

  /**
   * How `generate_wallets` has cut the work so far: the batch sizes add up to `processed`,
   * each is positive and at most `batchSize`, all but the last are full, and while work
   * remains (`open`) every one of them is full.
   */
  ghost predicate BatchesCut(sizes: seq<int>, batchSize: int, processed: int, open: bool) {
    && Sum(sizes) == processed
    && (forall i :: 0 <= i < |sizes| ==> 0 < sizes[i] <= batchSize)
    && (forall i :: 0 <= i < |sizes| - 1 ==> sizes[i] == batchSize)
    && (open ==> forall i :: 0 <= i < |sizes| ==> sizes[i] == batchSize)
  }

  /** The accounting of one batch of `min(batchSize, remaining)` pairs. */
  lemma BatchStep(sizes: seq<int>, batchSize: int, processed: int, remaining: int)
    requires batchSize > 0 && remaining > 0
    requires BatchesCut(sizes, batchSize, processed, true)
    ensures var current := Min(batchSize, remaining);
      var grown := sizes + [current];
      && BatchesCut(grown, batchSize, processed + current, remaining - current > 0)
      && MultiplesOf(RunningTotals(grown), 5 * batchSize)
         == MultiplesOf(RunningTotals(sizes), 5 * batchSize)
            + (if (processed + current) % (5 * batchSize) == 0 then [processed + current] else [])
  {
    var current := Min(batchSize, remaining);
    var grown := sizes + [current];
    assert grown[..|grown| - 1] == sizes;
    var totals := RunningTotals(grown);
    assert totals[..|totals| - 1] == RunningTotals(sizes);
  }

  /** Batches that are all full but the last, non-empty one, number ceil(total / size). */
  lemma {:induction false} BatchCountBounds(sizes: seq<int>, batchSize: int)
    requires sizes != [] && batchSize > 0
    requires forall i :: 0 <= i < |sizes| - 1 ==> sizes[i] == batchSize
    requires 0 < sizes[|sizes| - 1] <= batchSize
    ensures (|sizes| - 1) * batchSize < Sum(sizes) <= |sizes| * batchSize
  {
    var front := sizes[..|sizes| - 1];
    FullBatchesSum(front, batchSize);
    assert Sum(sizes) == Sum(front) + sizes[|sizes| - 1];
    assert |sizes| * batchSize == |front| * batchSize + batchSize;
  }

  lemma {:induction false} FullBatchesSum(sizes: seq<int>, batchSize: int)
    requires forall i :: 0 <= i < |sizes| ==> sizes[i] == batchSize
    ensures Sum(sizes) == |sizes| * batchSize
  {
    if sizes != [] {
      var front := sizes[..|sizes| - 1];
      FullBatchesSum(front, batchSize);
      assert |sizes| * batchSize == |front| * batchSize + batchSize;
    }
  }

  /** The schema's guarantees: unique addresses, ascending ids, all below the counter. */
  ghost predicate TableValid(rows: seq<Row>, nextId: int) {
    && UniqueAddresses(rows) && IdsAscending(rows)
    && (forall i :: 0 <= i < |rows| ==> rows[i].id < nextId)
  }

  /** `rows`/`nextId` hold `initial` followed by what inserting `keys` into it adds. */
  ghost predicate Tracks(rows: seq<Row>, nextId: int, initial: seq<Row>, firstId: int, keys: seq<KeyPair>) {
    rows == initial + InsertedRows(AddressesOf(initial), keys, firstId) && nextId == firstId + |keys|
  }

  /** What an insert that raises after `failAt` statements has applied of `batch`. */
  function Applied(batch: seq<KeyPair>, failAt: Option<nat>): (applied: seq<KeyPair>)
    ensures applied <= batch
    ensures failAt.None? ==> applied == batch
    ensures failAt.Some? ==> |applied| == Min(failAt.value, |batch|)
  {
    if failAt.Some? then batch[..Min(failAt.value, |batch|)] else batch
  }

  /** The statement at which the insert of batch number `b` fails, if it does. */
  function FailureAt(failures: map<nat, nat>, b: nat): Option<nat> {
    if b in failures then Some(failures[b]) else None
  }

  /** The table, its counter and the inserted count `generate_wallets` reports. */
  datatype Generated = Generated(rows: seq<Row>, nextId: int, inserted: int)

  /** One batch of `generate_wallets`: what it stores, and the count it adds. */
  function InsertBatch(g: Generated, batch: seq<KeyPair>, failAt: Option<nat>): Generated {
    var applied := Applied(batch, failAt);
    var added := InsertedRows(AddressesOf(g.rows), applied, g.nextId);
    Generated(g.rows + added, g.nextId + |applied|, g.inserted + if failAt.None? then |added| else 0)
  }

  /** A batch only appends rows, and adds at most its size to the count. */
  lemma InsertBatchGrows(g: Generated, batch: seq<KeyPair>, failAt: Option<nat>)
    ensures var next := InsertBatch(g, batch, failAt);
      && g.rows <= next.rows && g.nextId <= next.nextId
      && g.inserted <= next.inserted <= g.inserted + |batch|
  {
  }

  /** The count a batch adds does not depend on the count before it. */
  lemma InsertBatchAddsCount(rows: seq<Row>, nextId: int, total: int, batch: seq<KeyPair>, failAt: Option<nat>)
    ensures var next := InsertBatch(Generated(rows, nextId, 0), batch, failAt);
      InsertBatch(Generated(rows, nextId, total), batch, failAt) == Generated(next.rows, next.nextId, total + next.inserted)
  {
  }

  predicate Positive(sizes: seq<int>) {
    forall i :: 0 <= i < |sizes| ==> sizes[i] > 0
  }

  lemma {:induction false} SumOfPositive(sizes: seq<int>)
    requires Positive(sizes)
    ensures Sum(sizes) >= |sizes|
  {
    if sizes != [] {
      SumOfPositive(sizes[..|sizes| - 1]);
    }
  }

  /**
   * The state after inserting, from `start`, consecutive batches of `keys` with the
   * given sizes, batch number b failing at the statement `failures` names for it.
   */
  function Replay(start: Generated, keys: seq<KeyPair>, sizes: seq<int>, failures: map<nat, nat>): Generated
    requires Positive(sizes) && Sum(sizes) <= |keys|
    decreases |sizes|
  {
    if sizes == [] then start
    else
      var front := sizes[..|sizes| - 1];
      SumOfPositive(front);
      InsertBatch(Replay(start, keys, front, failures), keys[Sum(front)..Sum(sizes)],
                  FailureAt(failures, |front|))
  }

  /** Replaying one more batch inserts the keys that follow those already replayed. */
  lemma ReplayStep(start: Generated, keys: seq<KeyPair>, sizes: seq<int>, done: int, current: int,
                   failures: map<nat, nat>, reached: Generated, next: Generated)
    requires Positive(sizes) && done == Sum(sizes) && current > 0 && 0 <= done && done + current <= |keys|
    requires reached == Replay(start, keys, sizes, failures)
    requires next == InsertBatch(reached, keys[done..done + current], FailureAt(failures, |sizes|))
    ensures Positive(sizes + [current]) && Sum(sizes + [current]) == done + current
    ensures Replay(start, keys, sizes + [current], failures) == next
  {
    assert (sizes + [current])[..|sizes|] == sizes;
  }

  /**
   * Without failures, the batches store exactly what one insert of all their keys
   * would, and the reported count is the number of rows added.
   */
  lemma {:induction false} ReplayWithoutFailures(initial: seq<Row>, firstId: int, keys: seq<KeyPair>, sizes: seq<int>)
    requires Positive(sizes) && 0 <= Sum(sizes) <= |keys|
    ensures var g := Replay(Generated(initial, firstId, 0), keys, sizes, map[]);
      && Tracks(g.rows, g.nextId, initial, firstId, keys[..Sum(sizes)])
      && |g.rows| == |initial| + g.inserted
    decreases |sizes|
  {
    if sizes == [] {
      assert keys[..0] == [];
      assert initial + [] == initial;
    } else {
      var front := sizes[..|sizes| - 1];
      SumOfPositive(front);
      ReplayWithoutFailures(initial, firstId, keys, front);
      var before := Replay(Generated(initial, firstId, 0), keys, front, map[]);
      var after := Replay(Generated(initial, firstId, 0), keys, sizes, map[]);
      assert Sum(sizes) == Sum(front) + sizes[|sizes| - 1];
      InsertStepExtendsTable(initial, firstId, keys, Sum(front), sizes[|sizes| - 1],
                             before.rows, before.nextId, after.rows, after.nextId);
    }
  }

  /**
   * Where `generate_wallets` stands after the batches `batchSizes`: the accounting of
   * the loop, the table and count that replaying those batches gives, and a commit
   * logged at every running total that is a multiple of `5 * batchSize`.
   */
  ghost predicate Progress(count: int, batchSize: int, keys: seq<KeyPair>, failures: map<nat, nat>,
                           initial: seq<Row>, firstId: int, startLog: seq<int>,
                           rows: seq<Row>, nextId: int, commitLog: seq<int>,
                           processed: int, remaining: int, totalInserted: int, batchSizes: seq<int>)
  {
    && batchSize > 0
    && 0 <= processed <= |keys| && remaining == count - processed
    && (count > 0 ==> remaining >= 0)
    && BatchesCut(batchSizes, batchSize, processed, remaining > 0)
    && (count <= 0 ==> batchSizes == [])
    && 0 <= totalInserted <= processed
    && initial <= rows
    && Generated(rows, nextId, totalInserted) == Replay(Generated(initial, firstId, 0), keys, batchSizes, failures)
    && commitLog == startLog + MultiplesOf(RunningTotals(batchSizes), 5 * batchSize)
  }

  /** One batch of `min(batchSize, remaining)` keys, inserted and committed when due, keeps `Progress`. */
  lemma ProgressStep(count: int, batchSize: int, keys: seq<KeyPair>, failures: map<nat, nat>,
                     initial: seq<Row>, firstId: int, startLog: seq<int>,
                     rows: seq<Row>, nextId: int, commitLog: seq<int>,
                     processed: int, remaining: int, totalInserted: int, batchSizes: seq<int>,
                     rows': seq<Row>, nextId': int, commitLog': seq<int>, inserted: int)
    requires remaining > 0
    requires |keys| == if count > 0 then count else 0
    requires Progress(count, batchSize, keys, failures, initial, firstId, startLog,
                      rows, nextId, commitLog, processed, remaining, totalInserted, batchSizes)
    requires var current := Min(batchSize, remaining);
      var next := InsertBatch(Generated(rows, nextId, 0), keys[processed..processed + current],
                              FailureAt(failures, |batchSizes|));
      && rows' == next.rows && nextId' == next.nextId && inserted == next.inserted
      && commitLog' == commitLog + (if (processed + current) % (5 * batchSize) == 0 then [processed + current] else [])
    ensures var current := Min(batchSize, remaining);
      Progress(count, batchSize, keys, failures, initial, firstId, startLog,
               rows', nextId', commitLog', processed + current, remaining - current,
               totalInserted + inserted, batchSizes + [current])
  {
    var current := Min(batchSize, remaining);
    var batch := keys[processed..processed + current];
    var failAt := FailureAt(failures, |batchSizes|);
    var grown := batchSizes + [current];
    var start := Generated(initial, firstId, 0);
    InsertBatchAddsCount(rows, nextId, totalInserted, batch, failAt);
    InsertBatchGrows(Generated(rows, nextId, totalInserted), batch, failAt);
    assert Sum(batchSizes) == processed && Positive(batchSizes);
    ReplayStep(start, keys, batchSizes, processed, current, failures,
               Generated(rows, nextId, totalInserted), Generated(rows', nextId', totalInserted + inserted));
    BatchStep(batchSizes, batchSize, processed, remaining);
    CommitLogStep(batchSize, startLog, commitLog, commitLog', batchSizes, processed, remaining);
  }

  /** The commit due after one more batch extends the log of commits at multiples of `5 * batchSize`. */
  lemma CommitLogStep(batchSize: int, startLog: seq<int>, commitLog: seq<int>, commitLog': seq<int>,
                      sizes: seq<int>, processed: int, remaining: int)
    requires batchSize > 0 && remaining > 0
    requires BatchesCut(sizes, batchSize, processed, true)
    requires commitLog == startLog + MultiplesOf(RunningTotals(sizes), 5 * batchSize)
    requires var current := Min(batchSize, remaining);
      commitLog' == commitLog + (if (processed + current) % (5 * batchSize) == 0 then [processed + current] else [])
    ensures commitLog' == startLog + MultiplesOf(RunningTotals(sizes + [Min(batchSize, remaining)]), 5 * batchSize)
  {
    BatchStep(sizes, batchSize, processed, remaining);
  }

  class WalletTable {
    /** The rows as the open transaction sees them, in id order. */
    var rows: seq<Row>
    /** The rows as of the last commit. */
    var committed: seq<Row>
    /** The AUTOINCREMENT counter: the id the next stored row receives. */
    var nextId: int
    /** The `processed` count at each commit so far. */
    ghost var commitLog: seq<int>

    ghost predicate Valid()
      reads this
    {
      TableValid(rows, nextId)
    }

    /** Opens a table holding `existing` (the schema's constraints make it valid). */
    constructor Open(existing: seq<Row>, counter: int)
      requires UniqueAddresses(existing) && IdsAscending(existing)
      requires forall i :: 0 <= i < |existing| ==> existing[i].id < counter
      ensures Valid() && rows == existing && committed == existing && nextId == counter
      ensures commitLog == []
    {
      rows, committed, nextId := existing, existing, counter;
      commitLog := [];
    }

    /**
     * `INSERT OR IGNORE` of every pair of `batch` in one `executemany`. `failAt == Some(k)`
     * stands for an sqlite3.Error raised after the first k statements took effect; the
     * method then reports 0 rows although those statements stay applied.
     */
    method InsertWalletsBatch(batch: seq<KeyPair>, failAt: Option<nat>) returns (inserted: int)
      requires Valid()
      modifies this`rows, this`nextId
      ensures Valid()
      ensures var next := InsertBatch(Generated(old(rows), old(nextId), 0), batch, failAt);
        rows == next.rows && nextId == next.nextId && inserted == next.inserted
    {
      var applied := Applied(batch, failAt);
      var added := InsertedRows(AddressesOf(rows), applied, nextId);
      InsertedRowsFit(AddressesOf(rows), applied, nextId);
      AppendKeepsTableValid(rows, nextId, added, nextId + |applied|);
      rows := rows + added;
      nextId := nextId + |applied|;
      inserted := if failAt.None? then |added| else 0;
    }

    /** `conn.commit()` after `processed` pairs. */
    method Commit(ghost processed: int)
      modifies this`committed, this`commitLog
      ensures committed == rows && commitLog == old(commitLog) + [processed]
    {
      committed := rows;
      commitLog := commitLog + [processed];
    }

    /** What holds between two batches of `generate_wallets`. */
    ghost predicate Generating(count: int, batchSize: int, keys: seq<KeyPair>, failures: map<nat, nat>,
                               initial: seq<Row>, firstId: int, startLog: seq<int>,
                               processed: int, remaining: int, totalInserted: int, batchSizes: seq<int>)
      reads this
    {
      && Valid()
      && Progress(count, batchSize, keys, failures, initial, firstId, startLog,
                  rows, nextId, commitLog, processed, remaining, totalInserted, batchSizes)
    }

    /** The insert of one pass of the loop body of `generate_wallets`, before the commit that may follow. */
    method InsertNextBatch(count: int, batchSize: int, keys: seq<KeyPair>, failures: map<nat, nat>,
                           ghost initial: seq<Row>, ghost firstId: int, ghost startLog: seq<int>,
                           processed: int, remaining: int, totalInserted: int, batchSizes: seq<int>)
      returns (processed': int, remaining': int, totalInserted': int, batchSizes': seq<int>)
      requires remaining > 0
      requires |keys| == if count > 0 then count else 0
      requires Generating(count, batchSize, keys, failures, initial, firstId, startLog,
                          processed, remaining, totalInserted, batchSizes)
      modifies this`rows, this`nextId
      ensures var current := Min(batchSize, remaining);
        && batchSizes' == batchSizes + [current]
        && processed' == processed + current && remaining' == remaining - current
      ensures Valid()
      ensures Progress(count, batchSize, keys, failures, initial, firstId, startLog, rows, nextId,
                       commitLog + (if processed' % (5 * batchSize) == 0 then [processed'] else []),
                       processed', remaining', totalInserted', batchSizes')
      ensures Generated(rows, nextId, totalInserted')
              == InsertBatch(Generated(old(rows), old(nextId), totalInserted), keys[processed..processed'],
                             FailureAt(failures, |batchSizes|))
    {
      var current := Min(batchSize, remaining);
      var failAt := FailureAt(failures, |batchSizes|);
      var walletBatch := keys[processed..processed + current];
      ghost var before, beforeId := rows, nextId;
      var inserted := InsertWalletsBatch(walletBatch, failAt);
      totalInserted' := totalInserted + inserted;
      batchSizes' := batchSizes + [current];
      processed' := processed + current;
      remaining' := remaining - current;
      InsertBatchAddsCount(before, beforeId, totalInserted, walletBatch, failAt);
      ProgressStep(count, batchSize, keys, failures, initial, firstId, startLog, before, beforeId, commitLog,
                   processed, remaining, totalInserted, batchSizes, rows, nextId,
                   commitLog + (if processed' % (5 * batchSize) == 0 then [processed'] else []), inserted);
    }

    /** One pass of the loop body of `generate_wallets`: insert the next batch, commit when due. */
    method GenerateNextBatch(count: int, batchSize: int, keys: seq<KeyPair>, failures: map<nat, nat>,
                             ghost initial: seq<Row>, ghost firstId: int, ghost startLog: seq<int>,
                             processed: int, remaining: int, totalInserted: int, batchSizes: seq<int>)
      returns (processed': int, remaining': int, totalInserted': int, batchSizes': seq<int>)
      requires remaining > 0
      requires |keys| == if count > 0 then count else 0
      requires Generating(count, batchSize, keys, failures, initial, firstId, startLog,
                          processed, remaining, totalInserted, batchSizes)
      modifies this`rows, this`nextId, this`committed, this`commitLog
      ensures Generating(count, batchSize, keys, failures, initial, firstId, startLog,
                         processed', remaining', totalInserted', batchSizes')
      ensures var current := Min(batchSize, remaining);
        && batchSizes' == batchSizes + [current]
        && processed' == processed + current && remaining' == remaining - current
      ensures Generated(rows, nextId, totalInserted')
              == InsertBatch(Generated(old(rows), old(nextId), totalInserted), keys[processed..processed'],
                             FailureAt(failures, |batchSizes|))
      ensures commitLog == old(commitLog) + (if processed' % (5 * batchSize) == 0 then [processed'] else [])
      ensures committed == if processed' % (5 * batchSize) == 0 then rows else old(committed)
    {
      processed', remaining', totalInserted', batchSizes' :=
        InsertNextBatch(count, batchSize, keys, failures, initial, firstId, startLog,
                        processed, remaining, totalInserted, batchSizes);
      assert batchSize * 5 == 5 * batchSize;
      if processed' % (batchSize * 5) == 0 {
        Commit(processed');
      }
    }

    /**
     * `generate_wallets`: consume `count` generated pairs in batches of
     * `min(batchSize, remaining)`, insert each batch, commit after every batch that
     * brings `processed` to a multiple of `5 * batchSize`, and commit at the end.
     * `failures` maps a batch number to the statement at which its insert fails.
     */
    method GenerateWallets(count: int, batchSize: int, keys: seq<KeyPair>, failures: map<nat, nat>)
      returns (totalInserted: int, processed: int, batchSizes: seq<int>)
      requires Valid()
      requires batchSize > 0
      requires |keys| == if count > 0 then count else 0
      modifies this`rows, this`nextId, this`committed, this`commitLog
      ensures Valid()
      ensures processed == |keys| && Sum(batchSizes) == processed
      ensures forall i :: 0 <= i < |batchSizes| - 1 ==> batchSizes[i] == batchSize
      ensures forall i :: 0 <= i < |batchSizes| ==> 0 < batchSizes[i] <= batchSize
      ensures count <= 0 ==> batchSizes == []
      ensures count > 0 ==> (|batchSizes| - 1) * batchSize < count <= |batchSizes| * batchSize
      ensures 0 <= totalInserted <= processed
      ensures old(rows) <= rows
      ensures Generated(rows, nextId, totalInserted)
              == Replay(Generated(old(rows), old(nextId), 0), keys, batchSizes, failures)
      ensures failures == map[] ==>
        && rows == old(rows) + InsertedRows(AddressesOf(old(rows)), keys, old(nextId))
        && nextId == old(nextId) + |keys|
        && |rows| == |old(rows)| + totalInserted
      ensures commitLog == old(commitLog) + MultiplesOf(RunningTotals(batchSizes), 5 * batchSize) + [processed]
      ensures committed == rows
    {
      ghost var initial, firstId, startLog := rows, nextId, commitLog;
      totalInserted, processed, batchSizes := 0, 0, [];
      var remaining := count;
      while remaining > 0
        invariant Generating(count, batchSize, keys, failures, initial, firstId, startLog,
                             processed, remaining, totalInserted, batchSizes)
        decreases remaining
      {
        processed, remaining, totalInserted, batchSizes :=
          GenerateNextBatch(count, batchSize, keys, failures, initial, firstId, startLog,
                            processed, remaining, totalInserted, batchSizes);
      }
      assert count > 0 ==> processed == count;
      assert BatchesCut(batchSizes, batchSize, processed, false);
      if failures == map[] {
        ReplayWithoutFailures(initial, firstId, keys, batchSizes);
        assert keys[..processed] == keys;
      }
      if batchSizes != [] {
        BatchCountBounds(batchSizes, batchSize);
      }
      Commit(processed);
    }
  }
}
