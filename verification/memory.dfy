/**
  The in-memory store (storage/memory/memory.go): three nested maps keyed by
  transaction id then customer, by customer then day key, and by customer then
  (ISO year, ISO week). `Tables` is the value of the three maps and states what
  each operation does; `Database` is the object the engine mutates in place.
 */
module Memory {
  import opened Wrappers
  import opened Domain

  datatype Tables = Tables(
    transactions: map<string, map<string, Transaction>>,
    daily: map<string, map<string, DailyTransaction>>,
    weekly: map<string, map<WeeklyTransaction, WeeklyTransactionTotal>>)
  {
    /** The pair (id, customer) has been recorded. */
    predicate HasTransaction(id: string, customerId: string)
    {
      id in transactions && customerId in transactions[id]
    }

    /** Every recorded transaction sits under its own id and its own customer. */
    ghost predicate Keyed()
    {
      forall id, c :: HasTransaction(id, c) ==>
        transactions[id][c].id == id && transactions[id][c].customerId == c
    }

    /** Records a transaction: an empty id and an already recorded (id, customer) pair are refused. */
    function AddTransaction(t: Transaction): (r: (Tables, Option<StoreError>))
      ensures t.id == "" ==> r == (this, Some(TransactionEmptyID))
      ensures t.id != "" && HasTransaction(t.id, t.customerId) ==> r == (this, Some(TransactionAlreadyExist))
      ensures t.id != "" && !HasTransaction(t.id, t.customerId) ==>
        && r.1 == None
        && r.0.daily == daily && r.0.weekly == weekly
        && r.0.HasTransaction(t.id, t.customerId) && r.0.transactions[t.id][t.customerId] == t
    {
      if t.id == "" then (this, Some(TransactionEmptyID))
      else if t.id !in transactions then
        (this.(transactions := transactions[t.id := map[t.customerId := t]]), None)
      else if t.customerId !in transactions[t.id] then
        (this.(transactions := transactions[t.id := transactions[t.id][t.customerId := t]]), None)
      else (this, Some(TransactionAlreadyExist))
    }

    /** Replaces the customer's whole map of days by the single entry day -> aggregate. */
    function AddDailyTransaction(customerId: string, day: string, aggregate: DailyTransaction): (r: Tables)
      ensures r.transactions == transactions && r.weekly == weekly
      ensures r.daily.Keys == daily.Keys + {customerId}
    {
      this.(daily := daily[customerId := map[day := aggregate]])
    }

    /** Replaces the customer's whole map of weeks by the single entry week -> total. */
    function AddWeeklyTransaction(customerId: string, week: WeeklyTransaction, total: WeeklyTransactionTotal): (r: Tables)
      ensures r.transactions == transactions && r.daily == daily
      ensures r.weekly.Keys == weekly.Keys + {customerId}
    {
      this.(weekly := weekly[customerId := map[week := total]])
    }

    /** The stored aggregate, or the zero aggregate with NotFound when the customer or the day is absent. */
    function GetDailyTransaction(customerId: string, day: string): (r: (DailyTransaction, Option<StoreError>))
      ensures r.1 == None <==> customerId in daily && day in daily[customerId]
      ensures r.1 == None ==> r.0 == daily[customerId][day]
      ensures r.1 != None ==> r == (ZeroDaily, Some(NotFound))
    {
      if customerId !in daily then (ZeroDaily, Some(NotFound))
      else if day !in daily[customerId] then (ZeroDaily, Some(NotFound))
      else (daily[customerId][day], None)
    }

    /** The stored total, or the zero total with NotFound when the customer or the week is absent. */
    function GetWeeklyTransaction(customerId: string, week: WeeklyTransaction): (r: (WeeklyTransactionTotal, Option<StoreError>))
      ensures r.1 == None <==> customerId in weekly && week in weekly[customerId]
      ensures r.1 == None ==> r.0 == weekly[customerId][week]
      ensures r.1 != None ==> r == (ZeroWeeklyTotal, Some(NotFound))
    {
      if customerId !in weekly then (ZeroWeeklyTotal, Some(NotFound))
      else if week !in weekly[customerId] then (ZeroWeeklyTotal, Some(NotFound))
      else (weekly[customerId][week], None)
    }
  }

  const EmptyTables := Tables(map[], map[], map[])

  /** The store object; its three maps are replaced in place by the add operations. */
  class Database {
    var transactions: map<string, map<string, Transaction>>
    var daily: map<string, map<string, DailyTransaction>>
    var weekly: map<string, map<WeeklyTransaction, WeeklyTransactionTotal>>

    /** The value of the three maps. */
    function Contents(): Tables
      reads this
    {
      Tables(transactions, daily, weekly)
    }

    constructor New()
      ensures Contents() == EmptyTables
    {
      transactions := map[];
      daily := map[];
      weekly := map[];
    }

    method AddTransaction(t: Transaction) returns (err: Option<StoreError>)
      modifies this
      ensures (Contents(), err) == old(Contents()).AddTransaction(t)
    {
      if t.id == "" {
        return Some(TransactionEmptyID);
      }
      if t.id !in transactions {
        transactions := transactions[t.id := map[t.customerId := t]];
        return None;
      }
      var byCustomer := transactions[t.id];
      if t.customerId !in byCustomer {
        transactions := transactions[t.id := byCustomer[t.customerId := t]];
        return None;
      }
      return Some(TransactionAlreadyExist);
    }

    method AddDailyTransaction(customerId: string, day: string, aggregate: DailyTransaction)
      modifies this
      ensures Contents() == old(Contents()).AddDailyTransaction(customerId, day, aggregate)
    {
      daily := daily[customerId := map[day := aggregate]];
    }

    method AddWeeklyTransaction(customerId: string, week: WeeklyTransaction, total: WeeklyTransactionTotal)
      modifies this
      ensures Contents() == old(Contents()).AddWeeklyTransaction(customerId, week, total)
    {
      weekly := weekly[customerId := map[week := total]];
    }

    method GetDailyTransaction(customerId: string, day: string) returns (aggregate: DailyTransaction, err: Option<StoreError>)
      ensures (aggregate, err) == Contents().GetDailyTransaction(customerId, day)
    {
      if customerId !in daily {
        return ZeroDaily, Some(NotFound);
      }
      var byDay := daily[customerId];
      if day !in byDay {
        return ZeroDaily, Some(NotFound);
      }
      return byDay[day], None;
    }

    method GetWeeklyTransaction(customerId: string, week: WeeklyTransaction) returns (total: WeeklyTransactionTotal, err: Option<StoreError>)
      ensures (total, err) == Contents().GetWeeklyTransaction(customerId, week)
    {
      if customerId !in weekly {
        return ZeroWeeklyTotal, Some(NotFound);
      }
      var byWeek := weekly[customerId];
      if week !in byWeek {
        return ZeroWeeklyTotal, Some(NotFound);
      }
      return byWeek[week], None;
    }
  }

  // ---------------------------------------------------------------------
  // Properties of the store

  /** Recording keeps every transaction under its own id and customer. */
  lemma {:induction false} AddTransactionKeepsKeyed(s: Tables, t: Transaction)
    requires s.Keyed()
    ensures s.AddTransaction(t).0.Keyed()
  {
    var s' := s.AddTransaction(t).0;
    forall id, c | s'.HasTransaction(id, c)
      ensures s'.transactions[id][c].id == id && s'.transactions[id][c].customerId == c
    {
      if (id, c) != (t.id, t.customerId) {
        assert s.HasTransaction(id, c);
      }
    }
  }

  /** Recording one pair leaves every other recorded pair, and every absent one, as it was. */
  lemma AddTransactionOthersUnchanged(s: Tables, t: Transaction, id: string, c: string)
    requires (id, c) != (t.id, t.customerId)
    ensures var s' := s.AddTransaction(t).0;
      && (s'.HasTransaction(id, c) <==> s.HasTransaction(id, c))
      && (s.HasTransaction(id, c) ==> s'.transactions[id][c] == s.transactions[id][c])
  {
  }

  /** Recording a pair a second time is refused and leaves the store as it was. */
  lemma AddTransactionTwice(s: Tables, t: Transaction)
    requires t.id != ""
    ensures var s' := s.AddTransaction(t).0;
      s'.AddTransaction(t) == (s', Some(TransactionAlreadyExist))
  {
  }

  /** The same id recorded for two different customers succeeds both times. */
  lemma SameIdDifferentCustomers(s: Tables, t: Transaction, other: string)
    requires t.id != "" && other != t.customerId
    requires !s.HasTransaction(t.id, t.customerId) && !s.HasTransaction(t.id, other)
    ensures var (s1, err1) := s.AddTransaction(t);
      && err1 == None
      && s1.AddTransaction(t.(customerId := other)).1 == None
      && s1.AddTransaction(t.(customerId := other)).0.HasTransaction(t.id, t.customerId)
  {
  }

  /** After AddDailyTransaction(c, day, x), GetDailyTransaction(c, day) gives x back. */
  lemma AddDailyThenGet(s: Tables, c: string, day: string, x: DailyTransaction)
    ensures s.AddDailyTransaction(c, day, x).GetDailyTransaction(c, day) == (x, None)
  {
  }

  /** AddDailyTransaction forgets every other day of that customer and leaves other customers alone. */
  lemma AddDailyReplacesCustomer(s: Tables, c: string, day: string, x: DailyTransaction, c2: string, day2: string)
    ensures var s' := s.AddDailyTransaction(c, day, x);
      && (c2 == c && day2 != day ==> s'.GetDailyTransaction(c2, day2) == (ZeroDaily, Some(NotFound)))
      && (c2 != c ==> s'.GetDailyTransaction(c2, day2) == s.GetDailyTransaction(c2, day2))
  {
  }

  /** After AddWeeklyTransaction(c, week, t), GetWeeklyTransaction(c, week) gives t back. */
  lemma AddWeeklyThenGet(s: Tables, c: string, week: WeeklyTransaction, total: WeeklyTransactionTotal)
    ensures s.AddWeeklyTransaction(c, week, total).GetWeeklyTransaction(c, week) == (total, None)
  {
  }

  /** AddWeeklyTransaction forgets every other week of that customer and leaves other customers alone. */
  lemma AddWeeklyReplacesCustomer(s: Tables, c: string, week: WeeklyTransaction, total: WeeklyTransactionTotal,
                                  c2: string, week2: WeeklyTransaction)
    ensures var s' := s.AddWeeklyTransaction(c, week, total);
      && (c2 == c && week2 != week ==> s'.GetWeeklyTransaction(c2, week2) == (ZeroWeeklyTotal, Some(NotFound)))
      && (c2 != c ==> s'.GetWeeklyTransaction(c2, week2) == s.GetWeeklyTransaction(c2, week2))
  {
  }

  /** The store's own scenarios: an empty id is refused on a fresh store, a fresh store finds nothing. */
  lemma FreshStore(t: Transaction, c: string, day: string, week: WeeklyTransaction)
    ensures t.id == "" ==> EmptyTables.AddTransaction(t) == (EmptyTables, Some(TransactionEmptyID))
    ensures t.id != "" ==> EmptyTables.AddTransaction(t).1 == None
    ensures EmptyTables.GetDailyTransaction(c, day) == (ZeroDaily, Some(NotFound))
    ensures EmptyTables.GetWeeklyTransaction(c, week) == (ZeroWeeklyTotal, Some(NotFound))
  {
  }
}
