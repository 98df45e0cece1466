/**
 * Database.load_data_to_db: the coin_data table keyed by (coin, date),
 * written with INSERT ... ON CONFLICT DO NOTHING, and the coin_month_data
 * table keyed by (coin, year, month), written with an upsert that keeps
 * LEAST of the minimum prices and GREATEST of the maximum prices. The
 * PostgreSQL server is modelled by two maps; connecting and committing are
 * steps that may fail, and a failed load changes nothing.
 */
module Db {
  import opened Wrappers
  import opened Seqs
  import opened Dates
  import opened Payload

  datatype DayKey = DayKey(coin: string, date: Date)
  datatype DayRow = DayRow(price: real, json: Json)
  datatype MonthKey = MonthKey(coin: string, year: int, month: int)
  datatype MonthRow = MonthRow(minPrice: real, maxPrice: real)

  /** The values one call writes: coin, parsed date, price and the full document. */
  datatype Load = Load(coin: string, date: Date, price: real, json: Json)

  function DayKeyOf(l: Load): DayKey {
    DayKey(l.coin, l.date)
  }

  function DayRowOf(l: Load): DayRow {
    DayRow(l.price, l.json)
  }

  /** The month row a load aggregates into: its coin and the year and month of its date. */
  function MonthKeyOf(l: Load): MonthKey {
    MonthKey(l.coin, l.date.year, l.date.month)
  }

  datatype Tables = Tables(coinData: map<DayKey, DayRow>, coinMonthData: map<MonthKey, MonthRow>)

  const EmptyTables := Tables(map[], map[])

  /** Why a call raised instead of committing. */
  datatype DbError =
    | ConnectionFailed  // psycopg2.connect raised
    | BadDate           // strptime raised ValueError
    | MissingPrice      // the price path is absent or not a number
    | WriteFailed       // an execute or the commit raised

  /** The row tuple of the call: date parsed first, then the price looked up. */
  function PrepareLoad(coin: string, date: string, data: Json): (r: Result<Load, DbError>)
    ensures r.Ok? <==> ParseIso(date).Some? && ExtractPrice(data).Some?
    ensures ParseIso(date).None? ==> r == Err(BadDate)
    ensures r.Ok? ==> (r.value.coin == coin && Some(r.value.date) == ParseIso(date)
                       && Some(r.value.price) == ExtractPrice(data) && r.value.json == data)
  {
    match ParseIso(date)
    case None => Err(BadDate)
    case Some(d) =>
      match ExtractPrice(data)
      case None => Err(MissingPrice)
      case Some(p) => Ok(Load(coin, d, p, data))
  }

  /**
   * What a call returns or raises, given whether the connection opens and
   * whether the statements and the commit go through.
   */
  function LoadResult(coin: string, date: string, data: Json, connects: bool, commits: bool): (r: Result<Load, DbError>)
    ensures r.Ok? <==> connects && commits && ParseIso(date).Some? && ExtractPrice(data).Some?
    ensures !connects ==> r == Err(ConnectionFailed)
    ensures r.Ok? ==> r == PrepareLoad(coin, date, data)
  {
    if !connects then Err(ConnectionFailed)
    else match PrepareLoad(coin, date, data)
      case Err(e) => Err(e)
      case Ok(l) => if commits then Ok(l) else Err(WriteFailed)
  }

  /** INSERT ... ON CONFLICT (coin, date) DO NOTHING: the first row written for a key stays. */
  function InsertOrIgnore(t: map<DayKey, DayRow>, k: DayKey, row: DayRow): (r: map<DayKey, DayRow>)
    ensures r.Keys == t.Keys + {k}
    ensures forall k' :: k' in t ==> r[k'] == t[k']
    ensures k !in t ==> r[k] == row
  {
    if k in t then t else t[k := row]
  }

  /**
   * INSERT (min, max) = (price, price) ON CONFLICT (coin, year, month) DO UPDATE
   * with LEAST and GREATEST: the row for k afterwards spans the old row and the price.
   */
  function UpsertMinMax(t: map<MonthKey, MonthRow>, k: MonthKey, price: real): (r: map<MonthKey, MonthRow>)
    ensures r.Keys == t.Keys + {k}
    ensures forall k' :: k' in t && k' != k ==> r[k'] == t[k']
    ensures r[k].minPrice <= price <= r[k].maxPrice
    ensures k !in t ==> r[k].minPrice == price == r[k].maxPrice
    ensures k in t ==> r[k].minPrice <= t[k].minPrice && t[k].maxPrice <= r[k].maxPrice
    ensures k in t ==> ((r[k].minPrice == t[k].minPrice || r[k].minPrice == price)
                        && (r[k].maxPrice == t[k].maxPrice || r[k].maxPrice == price))
  {
    if k in t then
      var old_ := t[k];
      t[k := MonthRow(if old_.minPrice <= price then old_.minPrice else price,
                      if old_.maxPrice >= price then old_.maxPrice else price)]
    else
      t[k := MonthRow(price, price)]
  }

  /**
   * One committed call: the day insert-or-ignore, then the month upsert,
   * which runs even when the day row was a duplicate.
   */
  function Apply(t: Tables, l: Load): Tables {
    Tables(InsertOrIgnore(t.coinData, DayKeyOf(l), DayRowOf(l)),
           UpsertMinMax(t.coinMonthData, MonthKeyOf(l), l.price))
  }

  /**
   * After one committed call the load has its day row (an existing row for
   * the day is kept) and a month row spanning its price; every other row is
   * as it was.
   */
  lemma ApplyEffect(t: Tables, l: Load)
    ensures var r := Apply(t, l);
      && r.coinData.Keys == t.coinData.Keys + {DayKeyOf(l)}
      && r.coinMonthData.Keys == t.coinMonthData.Keys + {MonthKeyOf(l)}
      && r.coinData[DayKeyOf(l)] == (if DayKeyOf(l) in t.coinData then t.coinData[DayKeyOf(l)] else DayRowOf(l))
      && Covers(r.coinMonthData[MonthKeyOf(l)], l.price)
      && (forall k :: k in t.coinData ==> r.coinData[k] == t.coinData[k])
      && (forall k :: k in t.coinMonthData && k != MonthKeyOf(l) ==> r.coinMonthData[k] == t.coinMonthData[k])
  {
  }

  /**
   * The tables after committing the loads in order. Rows are only ever
   * added: every key of t stays, and every committed load has its day row
   * and its month row.
   */
  function ApplyAll(t: Tables, loads: seq<Load>): (r: Tables)
    ensures t.coinData.Keys <= r.coinData.Keys && t.coinMonthData.Keys <= r.coinMonthData.Keys
    ensures forall i :: 0 <= i < |loads| ==> DayKeyOf(loads[i]) in r.coinData && MonthKeyOf(loads[i]) in r.coinMonthData
    decreases |loads|
  {
    if loads == [] then t
    else
      var before := ApplyAll(t, loads[..|loads| - 1]);
      assert forall i :: 0 <= i < |loads| - 1 ==> loads[i] == loads[..|loads| - 1][i];
      Apply(before, loads[|loads| - 1])
  }

  /**
   * A successful call loads the coin and the date strptime read: its day
   * row is keyed by both, and its month row by the coin with that date's
   * year and month.
   */
  lemma LoadKeys(coin: string, date: string, data: Json)
    requires PrepareLoad(coin, date, data).Ok?
    ensures var l, d := PrepareLoad(coin, date, data).value, ParseIso(date).value;
      DayKeyOf(l) == DayKey(coin, d) && MonthKeyOf(l) == MonthKey(coin, d.year, d.month)
  {
  }

  lemma ApplyAllAppend(t: Tables, loads: seq<Load>, l: Load)
    ensures ApplyAll(t, loads + [l]) == Apply(ApplyAll(t, loads), l)
  {
    assert (loads + [l])[..|loads|] == loads;
  }

  ghost predicate MinAtMostMax(t: map<MonthKey, MonthRow>) {
    forall k :: k in t ==> t[k].minPrice <= t[k].maxPrice
  }

  predicate Covers(row: MonthRow, price: real) {
    row.minPrice <= price <= row.maxPrice
  }

  /** Every month row keeps min_price <= max_price across a load. */
  lemma ApplyKeepsMinAtMostMax(t: Tables, l: Load)
    requires MinAtMostMax(t.coinMonthData)
    ensures MinAtMostMax(Apply(t, l).coinMonthData)
  {
    var r := Apply(t, l).coinMonthData;
    forall k | k in r ensures r[k].minPrice <= r[k].maxPrice {
      if k == MonthKeyOf(l) {
        assert Covers(r[k], l.price);
      } else {
        assert r[k] == t.coinMonthData[k];
      }
    }
  }

  /**
   * Loading the same (coin, date) again leaves the day table as the first
   * load left it, whatever price and document the second load carries.
   */
  lemma DuplicateDayIgnored(t: Tables, first: Load, second: Load)
    requires DayKeyOf(first) == DayKeyOf(second)
    ensures Apply(Apply(t, first), second).coinData == Apply(t, first).coinData
    ensures DayKeyOf(first) in Apply(t, first).coinData
  {
  }

  /** Committing the very same load twice leaves both tables as one commit left them. */
  lemma {:induction false} ApplyIdempotent(t: Tables, l: Load)
    ensures Apply(Apply(t, l), l) == Apply(t, l)
  {
    var once := Apply(t, l);
    var twice := Apply(once, l);
    var k := MonthKeyOf(l);
    assert twice.coinMonthData[k] == once.coinMonthData[k];
    assert twice.coinMonthData == once.coinMonthData;
  }

  /**
   * Month rows only widen: after any further loads every existing row's
   * min_price has not increased and its max_price has not decreased, and
   * a day row once written never changes.
   */
  lemma {:induction false} ApplyAllWidens(t: Tables, loads: seq<Load>)
    ensures var r := ApplyAll(t, loads);
      && (forall k :: k in t.coinMonthData ==>
            k in r.coinMonthData
            && r.coinMonthData[k].minPrice <= t.coinMonthData[k].minPrice
            && t.coinMonthData[k].maxPrice <= r.coinMonthData[k].maxPrice)
      && (forall k :: k in t.coinData ==> k in r.coinData && r.coinData[k] == t.coinData[k])
    decreases |loads|
  {
    if loads != [] {
      ApplyAllWidens(t, loads[..|loads| - 1]);
    }
  }

  /**
   * Every price ever committed lies within [min_price, max_price] of its
   * month row, including prices whose day row was ignored as a duplicate.
   */
  lemma {:induction false} ApplyAllCovers(t: Tables, loads: seq<Load>)
    ensures var r := ApplyAll(t, loads).coinMonthData;
      forall i :: 0 <= i < |loads| ==>
        MonthKeyOf(loads[i]) in r && Covers(r[MonthKeyOf(loads[i])], loads[i].price)
    decreases |loads|
  {
    if loads != [] {
      var n := |loads| - 1;
      var prefix := loads[..n];
      ApplyAllCovers(t, prefix);
      var before := ApplyAll(t, prefix).coinMonthData;
      var r := ApplyAll(t, loads).coinMonthData;
      assert r == UpsertMinMax(before, MonthKeyOf(loads[n]), loads[n].price);
      forall i | 0 <= i < |loads|
        ensures MonthKeyOf(loads[i]) in r && Covers(r[MonthKeyOf(loads[i])], loads[i].price)
      {
        if i < n {
          assert loads[i] == prefix[i];
        }
      }
    }
  }

  /** From a well-formed state, every month row keeps min_price <= max_price. */
  lemma {:induction false} ApplyAllKeepsMinAtMostMax(t: Tables, loads: seq<Load>)
    requires MinAtMostMax(t.coinMonthData)
    ensures MinAtMostMax(ApplyAll(t, loads).coinMonthData)
    decreases |loads|
  {
    if loads != [] {
      ApplyAllKeepsMinAtMostMax(t, loads[..|loads| - 1]);
      ApplyKeepsMinAtMostMax(ApplyAll(t, loads[..|loads| - 1]), loads[|loads| - 1]);
    }
  }

  /**
   * Starting from empty tables, a month row exists exactly when some load
   * fell in that coin and month, and its min_price and max_price are the
   * least and the greatest of those loads' prices.
   */
  lemma {:induction false} MonthRowIsExtremes(loads: seq<Load>, k: MonthKey)
    ensures var r := ApplyAll(EmptyTables, loads).coinMonthData;
      && (k in r <==> exists i :: 0 <= i < |loads| && MonthKeyOf(loads[i]) == k)
      && (k in r ==>
            && (forall i :: 0 <= i < |loads| && MonthKeyOf(loads[i]) == k ==> Covers(r[k], loads[i].price))
            && (exists i :: 0 <= i < |loads| && MonthKeyOf(loads[i]) == k && loads[i].price == r[k].minPrice)
            && (exists i :: 0 <= i < |loads| && MonthKeyOf(loads[i]) == k && loads[i].price == r[k].maxPrice))
    decreases |loads|
  {
    ApplyAllCovers(EmptyTables, loads);
    if loads != [] {
      var n := |loads| - 1;
      var prefix := loads[..n];
      MonthRowIsExtremes(prefix, k);
      var before := ApplyAll(EmptyTables, prefix).coinMonthData;
      var r := ApplyAll(EmptyTables, loads).coinMonthData;
      assert r == UpsertMinMax(before, MonthKeyOf(loads[n]), loads[n].price);
      if k in before {
        var i :| 0 <= i < |prefix| && MonthKeyOf(prefix[i]) == k && prefix[i].price == before[k].minPrice;
        var j :| 0 <= j < |prefix| && MonthKeyOf(prefix[j]) == k && prefix[j].price == before[k].maxPrice;
        assert loads[i] == prefix[i] && loads[j] == prefix[j];
        if k == MonthKeyOf(loads[n]) {
          if r[k].minPrice != before[k].minPrice { assert loads[n].price == r[k].minPrice; }
          if r[k].maxPrice != before[k].maxPrice { assert loads[n].price == r[k].maxPrice; }
        }
      } else if k in r {
        assert MonthKeyOf(loads[n]) == k && loads[n].price == r[k].minPrice == r[k].maxPrice;
      } else {
        forall i | 0 <= i < |loads| ensures MonthKeyOf(loads[i]) != k {
          if i < n { assert loads[i] == prefix[i]; }
        }
      }
    }
  }

  /** Starting from empty tables, a day row exists only for a (coin, date) some load had. */
  lemma {:induction false} DayRowsComeFromLoads(loads: seq<Load>, k: DayKey)
    requires k in ApplyAll(EmptyTables, loads).coinData
    ensures exists i :: 0 <= i < |loads| && DayKeyOf(loads[i]) == k
    decreases |loads|
  {
    var n := |loads| - 1;
    var prefix := loads[..n];
    if k != DayKeyOf(loads[n]) {
      DayRowsComeFromLoads(prefix, k);
      var i :| 0 <= i < n && DayKeyOf(prefix[i]) == k;
      assert loads[i] == prefix[i];
    }
  }

  /**
   * Starting from empty tables, a day row exists exactly when some load had
   * that (coin, date), and it holds the price and document of the first such load.
   */
  lemma {:induction false} FirstWriteWins(loads: seq<Load>, k: DayKey)
    ensures var r := ApplyAll(EmptyTables, loads).coinData;
      && (k in r <==> exists i :: 0 <= i < |loads| && DayKeyOf(loads[i]) == k)
      && (k in r ==> exists i :: 0 <= i < |loads| && DayKeyOf(loads[i]) == k && r[k] == DayRowOf(loads[i])
                       && forall j :: 0 <= j < i ==> DayKeyOf(loads[j]) != k)
    decreases |loads|
  {
    var r := ApplyAll(EmptyTables, loads).coinData;
    if k in r {
      DayRowsComeFromLoads(loads, k);
      var n := |loads| - 1;
      var prefix := loads[..n];
      FirstWriteWins(prefix, k);
      var before := ApplyAll(EmptyTables, prefix).coinData;
      assert r == InsertOrIgnore(before, DayKeyOf(loads[n]), DayRowOf(loads[n]));
      if k in before {
        var i :| 0 <= i < |prefix| && DayKeyOf(prefix[i]) == k && before[k] == DayRowOf(prefix[i])
                 && forall j :: 0 <= j < i ==> DayKeyOf(prefix[j]) != k;
        assert loads[i] == prefix[i];
        forall j | 0 <= j < i ensures DayKeyOf(loads[j]) != k {
          assert loads[j] == prefix[j];
        }
      } else {
        forall j | 0 <= j < n ensures DayKeyOf(loads[j]) != k {
          assert loads[j] == prefix[j];
        }
      }
    }
  }

  lemma UpsertMinMaxCommutes(t: map<MonthKey, MonthRow>, ka: MonthKey, pa: real, kb: MonthKey, pb: real)
    ensures UpsertMinMax(UpsertMinMax(t, ka, pa), kb, pb) == UpsertMinMax(UpsertMinMax(t, kb, pb), ka, pa)
  {
    var ab := UpsertMinMax(UpsertMinMax(t, ka, pa), kb, pb);
    var ba := UpsertMinMax(UpsertMinMax(t, kb, pb), ka, pa);
    if ka == kb {
      assert ab[ka] == ba[ka];
    }
    assert ab.Keys == ba.Keys;
    forall k | k in ab ensures ab[k] == ba[k] {
    }
  }

  lemma InsertOrIgnoreCommutes(t: map<DayKey, DayRow>, ka: DayKey, ra: DayRow, kb: DayKey, rb: DayRow)
    requires ka != kb
    ensures InsertOrIgnore(InsertOrIgnore(t, ka, ra), kb, rb) == InsertOrIgnore(InsertOrIgnore(t, kb, rb), ka, ra)
  {
  }

  /**
   * Two loads for different days commute: the final tables do not depend
   * on which of two concurrent jobs commits first.
   */
  lemma {:induction false} ApplyCommutes(t: Tables, a: Load, b: Load)
    requires DayKeyOf(a) != DayKeyOf(b)
    ensures Apply(Apply(t, a), b) == Apply(Apply(t, b), a)
  {
    InsertOrIgnoreCommutes(t.coinData, DayKeyOf(a), DayRowOf(a), DayKeyOf(b), DayRowOf(b));
    UpsertMinMaxCommutes(t.coinMonthData, MonthKeyOf(a), a.price, MonthKeyOf(b), b.price);
  }

  /** Committing a then b is committing a, then b from where a left the tables. */
  lemma {:induction false} ApplyAllConcat(t: Tables, a: seq<Load>, b: seq<Load>)
    ensures ApplyAll(t, a + b) == ApplyAll(ApplyAll(t, a), b)
    decreases |b|
  {
    if b == [] {
      assert a + b == a;
    } else {
      ApplyAllConcat(t, a, b[..|b| - 1]);
      AppendDropLast(a, b);
    }
  }

  /**
   * Two neighbouring commits for different days may trade places without
   * changing either table; repeated, this makes the tables independent of
   * the order in which jobs for distinct days commit.
   */
  lemma ApplyAllSwap(t: Tables, loads: seq<Load>, i: nat)
    requires i + 1 < |loads| && DayKeyOf(loads[i]) != DayKeyOf(loads[i + 1])
    ensures ApplyAll(t, loads)
         == ApplyAll(t, loads[..i] + [loads[i + 1], loads[i]] + loads[i + 2..])
  {
    var pre, rest := loads[..i], loads[i + 2..];
    var x, y := loads[i], loads[i + 1];
    assert loads == (pre + [x, y]) + rest;
    ApplyAllConcat(t, pre + [x, y], rest);
    ApplyAllConcat(t, pre + [y, x], rest);
    var s := ApplyAll(t, pre);
    ApplyAllPair(t, pre, x, y);
    ApplyAllPair(t, pre, y, x);
    ApplyCommutes(s, x, y);
  }

  /** No two loads are for the same (coin, date). */
  predicate DistinctDays(loads: seq<Load>) {
    forall i, j :: 0 <= i < j < |loads| ==> DayKeyOf(loads[i]) != DayKeyOf(loads[j])
  }

  /** Dropping one load keeps the others' days distinct. */
  lemma DistinctDaysRemove(loads: seq<Load>, k: nat)
    requires k < |loads| && DistinctDays(loads)
    ensures DistinctDays(loads[..k] + loads[k + 1..])
  {
    var c := loads[..k] + loads[k + 1..];
    forall i, j | 0 <= i < j < |c| ensures DayKeyOf(c[i]) != DayKeyOf(c[j]) {
      var i', j' := if i < k then i else i + 1, if j < k then j else j + 1;
      assert c[i] == loads[i'] && c[j] == loads[j'];
    }
  }

  /**
   * A commit whose day no later commit shares can be moved to the end
   * without changing either table.
   */
  lemma {:induction false} ApplyAllMoveToEnd(t: Tables, loads: seq<Load>, k: nat)
    requires k < |loads|
    requires forall j :: k < j < |loads| ==> DayKeyOf(loads[j]) != DayKeyOf(loads[k])
    ensures ApplyAll(t, loads) == ApplyAll(t, loads[..k] + loads[k + 1..] + [loads[k]])
    decreases |loads| - k
  {
    if k == |loads| - 1 {
      assert loads == loads[..k] + loads[k + 1..] + [loads[k]];
    } else {
      var swapped := loads[..k] + [loads[k + 1], loads[k]] + loads[k + 2..];
      ApplyAllSwap(t, loads, k);
      SwapNext(loads, k);
      ApplyAllMoveToEnd(t, swapped, k + 1);
    }
  }

  /**
   * Loads for distinct days leave the same tables in whatever order they
   * are committed: any reordering (a permutation) of them gives the tables
   * their commit in the original order gives.
   */
  lemma {:induction false} ApplyAllPermutation(t: Tables, a: seq<Load>, b: seq<Load>)
    requires DistinctDays(a) && multiset(a) == multiset(b)
    ensures ApplyAll(t, a) == ApplyAll(t, b)
    decreases |b|
  {
    if b == [] {
      assert |a| == |multiset(a)| == 0;
    } else {
      var m := |b| - 1;
      var y := b[m];
      PermutationDropLast(a, b);
      var k :| 0 <= k < |a| && a[k] == y;
      var rest := a[..k] + a[k + 1..];
      ApplyAllMoveToEnd(t, a, k);
      DistinctDaysRemove(a, k);
      ApplyAllPermutation(t, rest, b[..m]);
      ApplyAllAppend(t, rest, y);
    }
  }

  lemma ApplyAllPair(t: Tables, pre: seq<Load>, x: Load, y: Load)
    ensures ApplyAll(t, pre + [x, y]) == Apply(Apply(ApplyAll(t, pre), x), y)
  {
    assert pre + [x, y] == (pre + [x]) + [y];
    ApplyAllAppend(t, pre + [x], y);
    ApplyAllAppend(t, pre, x);
  }

  /**
   * The PostgreSQL database named by the connection settings. The ghost
   * log `loads` holds every committed call in order, duplicates included;
   * the tables are always those the log produces from empty tables.
   */
  class Database {
    var coinData: map<DayKey, DayRow>
    var coinMonthData: map<MonthKey, MonthRow>
    ghost var loads: seq<Load>

    ghost predicate Valid()
      reads this
    {
      Tables(coinData, coinMonthData) == ApplyAll(EmptyTables, loads)
    }

    /**
     * What the tables of a consistent database always satisfy: every month
     * row has min_price <= max_price, and every committed price lies within
     * its month row.
     */
    lemma Consistent()
      requires Valid()
      ensures MinAtMostMax(coinMonthData)
      ensures forall i :: 0 <= i < |loads| ==>
        MonthKeyOf(loads[i]) in coinMonthData && Covers(coinMonthData[MonthKeyOf(loads[i])], loads[i].price)
    {
      ApplyAllKeepsMinAtMostMax(EmptyTables, loads);
      ApplyAllCovers(EmptyTables, loads);
    }

    /** A database whose two tables are empty. */
    constructor ()
      ensures Valid() && loads == []
      ensures coinData == map[] && coinMonthData == map[]
    {
      coinData, coinMonthData := map[], map[];
      loads := [];
    }

    /**
     * load_data_to_db(coin, date, data). `connects` and `commits` say
     * whether psycopg2.connect and the two statements with their commit
     * succeed. On success both tables change in one step; on any error
     * neither does.
     */
    method LoadDataToDb(coin: string, date: string, data: Json, connects: bool, commits: bool)
      returns (r: Result<Load, DbError>)
      requires Valid()
      modifies this
      ensures Valid()
      ensures r == LoadResult(coin, date, data, connects, commits)
      ensures r.Ok? ==> (loads == old(loads) + [r.value]
                         && coinData == InsertOrIgnore(old(coinData), DayKeyOf(r.value), DayRowOf(r.value))
                         && coinMonthData == UpsertMinMax(old(coinMonthData), MonthKeyOf(r.value), r.value.price))
      ensures r.Err? ==> coinData == old(coinData) && coinMonthData == old(coinMonthData) && loads == old(loads)
    {
      if !connects {
        return Err(ConnectionFailed);
      }
      var prepared := PrepareLoad(coin, date, data);
      if prepared.Err? {
        return Err(prepared.error);
      }
      if !commits {
        return Err(WriteFailed);
      }
      var l := prepared.value;
      coinData := InsertOrIgnore(coinData, DayKeyOf(l), DayRowOf(l));
      coinMonthData := UpsertMinMax(coinMonthData, MonthKeyOf(l), l.price);
      ApplyAllAppend(EmptyTables, loads, l);
      loads := loads + [l];
      r := Ok(l);
    }
  }
}
