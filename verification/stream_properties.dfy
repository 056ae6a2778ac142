/**
  The velocity limits over a stream of events handled one at a time: the amounts accepted for one customer on one calendar day sum to at most
  5000 in at most 3 loads, and those in one ISO week sum to at most 20000.

  The store keeps only the last day and the last week written for each customer, so
  this holds when each customer's events arrive with non-decreasing dates and each
  ISO week is a contiguous run of dates. Under those two conditions the stored
  aggregates of every customer are exactly the sums of what was accepted on its last
  accepted day and in that day's week (`Mirrors`), and the checks against them are
  checks against the true sums.
 */
module StreamProperties {
  import opened Wrappers
  import opened Domain
  import opened Memory
  import opened Handler
  import opened HandlerProperties

  /** An accepted load: its customer, its local date and its parsed amount. */
  datatype Load = Load(customerId: string, date: Date, amount: real)

  function LoadOf(t: Transaction, parse: FloatParser): Load
  {
    Load(t.customerId, t.time.date,
         match ConvertRawValue(t.loadAmount, parse) case Success(v) => v case Failure(_) => 0.0)
  }

  predicate IsAccepted(o: Outcome)
  {
    o.Decision? && o.response.accepted
  }

  /** The load an event adds to the accepted ones: its own when its outcome is an acceptance, none otherwise. */
  function FirstLoad(fund: Fund, outcome: Outcome, parse: FloatParser): seq<Load>
  {
    if IsAccepted(outcome) && fund.Decoded? then [LoadOf(fund.transaction, parse)] else []
  }

  /** The loads of the events whose outcome is an acceptance, in stream order. */
  function AcceptedLoads(funds: seq<Fund>, outcomes: seq<Outcome>, parse: FloatParser): seq<Load>
    requires |outcomes| == |funds|
    decreases |funds|
  {
    if funds == [] then []
    else
      FirstLoad(funds[0], outcomes[0], parse) + AcceptedLoads(funds[1..], outcomes[1..], parse)
  }

  // ---------------------------------------------------------------------
  // Sums over the accepted loads

  function DaySum(loads: seq<Load>, c: string, d: Date): real
    decreases |loads|
  {
    if loads == [] then 0.0
    else
      var x := loads[|loads| - 1];
      DaySum(loads[..|loads| - 1], c, d) + (if x.customerId == c && x.date == d then x.amount else 0.0)
  }

  function DayCount(loads: seq<Load>, c: string, d: Date): int
    decreases |loads|
  {
    if loads == [] then 0
    else
      var x := loads[|loads| - 1];
      DayCount(loads[..|loads| - 1], c, d) + (if x.customerId == c && x.date == d then 1 else 0)
  }

  function WeekSum(loads: seq<Load>, c: string, w: WeeklyTransaction, isoWeek: IsoWeekOf): real
    decreases |loads|
  {
    if loads == [] then 0.0
    else
      var x := loads[|loads| - 1];
      WeekSum(loads[..|loads| - 1], c, w, isoWeek) + (if x.customerId == c && isoWeek(x.date) == w then x.amount else 0.0)
  }

  /** The date of the customer's last accepted load. */
  function LastDate(loads: seq<Load>, c: string): Option<Date>
    decreases |loads|
  {
    if loads == [] then None
    else if loads[|loads| - 1].customerId == c then Some(loads[|loads| - 1].date)
    else LastDate(loads[..|loads| - 1], c)
  }

  /** The velocity limits: per customer, at most 5000 and 3 loads per day, at most 20000 per ISO week. */
  ghost predicate WithinDailyAndWeeklyLimits(loads: seq<Load>, isoWeek: IsoWeekOf)
  {
    && (forall c, d :: DaySum(loads, c, d) <= MaximumValuePerDay)
    && (forall c, d :: DayCount(loads, c, d) <= MaximumTransactionsPerDay)
    && (forall c, w :: WeekSum(loads, c, w, isoWeek) <= MaximumValuePerWeek)
  }

  // ---------------------------------------------------------------------
  // The order of events the result relies on

  predicate DateLe(a: Date, b: Date)
  {
    a.year < b.year || (a.year == b.year && (a.month < b.month || (a.month == b.month && a.day <= b.day)))
  }

  /** Each customer's decoded events come with non-decreasing local dates. */
  ghost predicate DatesInOrder(funds: seq<Fund>)
  {
    forall i, j | 0 <= i < j < |funds| && funds[i].Decoded? && funds[j].Decoded?
                  && funds[i].transaction.customerId == funds[j].transaction.customerId
      :: DateLe(funds[i].transaction.time.date, funds[j].transaction.time.date)
  }

  /** Every ISO week is a contiguous run of dates, as `time.ISOWeek` makes it. */
  ghost predicate WeeksContiguous(isoWeek: IsoWeekOf)
  {
    forall d1, d2, d3 | DateLe(d1, d2) && DateLe(d2, d3) && isoWeek(d1) == isoWeek(d3) :: isoWeek(d2) == isoWeek(d1)
  }

  /** Every load of the customer is dated on or before d. */
  ghost predicate LoadsUpTo(loads: seq<Load>, c: string, d: Date)
  {
    forall i | 0 <= i < |loads| && loads[i].customerId == c :: DateLe(loads[i].date, d)
  }

  /** Every accepted load is dated on or before every later event of its customer. */
  ghost predicate LoadsPrecede(loads: seq<Load>, funds: seq<Fund>)
  {
    forall i, j | 0 <= i < |loads| && 0 <= j < |funds| && funds[j].Decoded?
                  && funds[j].transaction.customerId == loads[i].customerId
      :: DateLe(loads[i].date, funds[j].transaction.time.date)
  }

  // ---------------------------------------------------------------------
  // The store mirrors the sums

  /**
    A customer without accepted loads has nothing stored; otherwise its only stored day
    is the date of its last accepted load, holding that day's sum and count, and its only
    stored week is that day's week, holding that week's sum.
   */
  ghost predicate CustomerMirrored(daily: map<string, map<string, DailyTransaction>>,
                                   weekly: map<string, map<WeeklyTransaction, WeeklyTransactionTotal>>,
                                   loads: seq<Load>, c: string, isoWeek: IsoWeekOf)
  {
    match LastDate(loads, c)
    case None => c !in daily && c !in weekly
    case Some(last) =>
      && LoadsUpTo(loads, c, last)
      && c in daily && daily[c].Keys == {FormatDate(last)}
      && daily[c][FormatDate(last)].dailyTotal == DaySum(loads, c, last)
      && daily[c][FormatDate(last)].transactionCount == DayCount(loads, c, last)
      && c in weekly && weekly[c].Keys == {isoWeek(last)}
      && weekly[c][isoWeek(last)].value == WeekSum(loads, c, isoWeek(last), isoWeek)
  }

  ghost predicate Mirrors(daily: map<string, map<string, DailyTransaction>>,
                          weekly: map<string, map<WeeklyTransaction, WeeklyTransactionTotal>>,
                          loads: seq<Load>, isoWeek: IsoWeekOf)
  {
    forall c :: CustomerMirrored(daily, weekly, loads, c, isoWeek)
  }

  // ---------------------------------------------------------------------
  // Facts about the sums

  lemma DateLeAntisymmetric(a: Date, b: Date)
    requires DateLe(a, b) && DateLe(b, a)
    ensures a == b
  {
  }

  /** Appending one load adds its amount (and one load) to its own day and week only. */
  lemma AppendLoad(loads: seq<Load>, x: Load, c: string, d: Date, w: WeeklyTransaction, isoWeek: IsoWeekOf)
    ensures DaySum(loads + [x], c, d) == DaySum(loads, c, d) + (if x.customerId == c && x.date == d then x.amount else 0.0)
    ensures DayCount(loads + [x], c, d) == DayCount(loads, c, d) + (if x.customerId == c && x.date == d then 1 else 0)
    ensures WeekSum(loads + [x], c, w, isoWeek)
         == WeekSum(loads, c, w, isoWeek) + (if x.customerId == c && isoWeek(x.date) == w then x.amount else 0.0)
    ensures LastDate(loads + [x], c) == if x.customerId == c then Some(x.date) else LastDate(loads, c)
  {
    assert (loads + [x])[..|loads|] == loads;
  }

  /** With no load of the customer on day d, its sum and count for d are zero. */
  lemma {:induction false} NoLoadsOnDay(loads: seq<Load>, c: string, d: Date)
    requires forall i | 0 <= i < |loads| :: !(loads[i].customerId == c && loads[i].date == d)
    ensures DaySum(loads, c, d) == 0.0 && DayCount(loads, c, d) == 0
    decreases |loads|
  {
    if loads != [] {
      NoLoadsOnDay(loads[..|loads| - 1], c, d);
    }
  }

  /** With no load of the customer in week w, its sum for w is zero. */
  lemma {:induction false} NoLoadsInWeek(loads: seq<Load>, c: string, w: WeeklyTransaction, isoWeek: IsoWeekOf)
    requires forall i | 0 <= i < |loads| :: !(loads[i].customerId == c && isoWeek(loads[i].date) == w)
    ensures WeekSum(loads, c, w, isoWeek) == 0.0
    decreases |loads|
  {
    if loads != [] {
      NoLoadsInWeek(loads[..|loads| - 1], c, w, isoWeek);
    }
  }

  /** A customer without a last date has no load at all. */
  lemma {:induction false} NoLastDate(loads: seq<Load>, c: string)
    requires LastDate(loads, c).None?
    ensures forall i | 0 <= i < |loads| :: loads[i].customerId != c
    decreases |loads|
  {
    if loads != [] {
      NoLastDate(loads[..|loads| - 1], c);
    }
  }

  /** The last date is the date of one of the customer's loads. */
  lemma {:induction false} LastDateIndex(loads: seq<Load>, c: string) returns (i: nat)
    requires LastDate(loads, c).Some?
    ensures i < |loads| && loads[i].customerId == c && loads[i].date == LastDate(loads, c).value
    decreases |loads|
  {
    if loads[|loads| - 1].customerId == c {
      i := |loads| - 1;
    } else {
      i := LastDateIndex(loads[..|loads| - 1], c);
    }
  }

  // ---------------------------------------------------------------------
  // One event

  /**
    On a mirroring store, the baseline an event is checked against is the true sum and
    count of its customer's day, a stored week holds the true sum of that week, and a
    week with nothing stored has no accepted load yet, nor has the day.
   */
  lemma {:induction false} BaselineIsSum(daily: map<string, map<string, DailyTransaction>>,
                                         weekly: map<string, map<WeeklyTransaction, WeeklyTransactionTotal>>,
                                         s: Tables, loads: seq<Load>, t: Transaction, isoWeek: IsoWeekOf)
    requires s.daily == daily && s.weekly == weekly
    requires CustomerMirrored(daily, weekly, loads, t.customerId, isoWeek)
    requires LoadsUpTo(loads, t.customerId, t.time.date)
    requires WeeksContiguous(isoWeek)
    ensures Baseline(s, t).dailyTotal == DaySum(loads, t.customerId, t.time.date)
    ensures Baseline(s, t).transactionCount == DayCount(loads, t.customerId, t.time.date)
    ensures HasWeek(s, t, isoWeek) ==>
      weekly[t.customerId][isoWeek(t.time.date)].value == WeekSum(loads, t.customerId, isoWeek(t.time.date), isoWeek)
    ensures !HasWeek(s, t, isoWeek) ==>
      WeekSum(loads, t.customerId, isoWeek(t.time.date), isoWeek) == 0.0 && Baseline(s, t) == ZeroDaily
  {
    var c, dt, w := t.customerId, t.time.date, isoWeek(t.time.date);
    match LastDate(loads, c)
    case None =>
      NoLastDate(loads, c);
      NoLoadsOnDay(loads, c, dt);
      NoLoadsInWeek(loads, c, w, isoWeek);
    case Some(last) =>
      var k := LastDateIndex(loads, c);
      assert DateLe(last, dt);
      if dt != last {
        FormatDateInjective(dt, last);
        assert FormatDate(dt) !in daily[c];
        forall i | 0 <= i < |loads|
          ensures !(loads[i].customerId == c && loads[i].date == dt)
        {
          if loads[i].customerId == c && loads[i].date == dt {
            DateLeAntisymmetric(dt, last);
          }
        }
        NoLoadsOnDay(loads, c, dt);
        if w != isoWeek(last) {
          forall i | 0 <= i < |loads|
            ensures !(loads[i].customerId == c && isoWeek(loads[i].date) == w)
          {
            if loads[i].customerId == c && isoWeek(loads[i].date) == w {
              assert false;
            }
          }
          NoLoadsInWeek(loads, c, w, isoWeek);
        }
      }
  }

  /** Committing an event that passed the checks keeps the velocity limits on the sums. */
  lemma {:induction false} CommitKeepsSumsWithinLimits(loads: seq<Load>, x: Load, base: DailyTransaction,
                                                       isoWeek: IsoWeekOf, weekBefore: real)
    requires WithinDailyAndWeeklyLimits(loads, isoWeek)
    requires base.dailyTotal == DaySum(loads, x.customerId, x.date)
    requires base.transactionCount == DayCount(loads, x.customerId, x.date)
    requires base.dailyTotal + x.amount <= MaximumValuePerDay
    requires base.transactionCount + 1 <= MaximumTransactionsPerDay
    requires weekBefore == WeekSum(loads, x.customerId, isoWeek(x.date), isoWeek)
    requires weekBefore + x.amount <= MaximumValuePerWeek
    ensures WithinDailyAndWeeklyLimits(loads + [x], isoWeek)
  {
    var w0 := isoWeek(x.date);
    forall c, d
      ensures DaySum(loads + [x], c, d) <= MaximumValuePerDay
      ensures DayCount(loads + [x], c, d) <= MaximumTransactionsPerDay
    {
      AppendLoad(loads, x, c, d, w0, isoWeek);
    }
    forall c, w
      ensures WeekSum(loads + [x], c, w, isoWeek) <= MaximumValuePerWeek
    {
      AppendLoad(loads, x, c, x.date, w, isoWeek);
    }
  }

  /**
    Committing an event that passed the checks writes exactly the new sums of its
    customer's day and week, so the store keeps mirroring the accepted loads.
   */
  lemma {:induction false} CommitKeepsMirror(daily: map<string, map<string, DailyTransaction>>,
                                             weekly: map<string, map<WeeklyTransaction, WeeklyTransactionTotal>>,
                                             loads: seq<Load>, t: Transaction, a: real,
                                             base: DailyTransaction, total: real, isoWeek: IsoWeekOf)
    requires Mirrors(daily, weekly, loads, isoWeek)
    requires LoadsUpTo(loads, t.customerId, t.time.date)
    requires base.dailyTotal == DaySum(loads, t.customerId, t.time.date)
    requires base.transactionCount == DayCount(loads, t.customerId, t.time.date)
    requires total == WeekSum(loads, t.customerId, isoWeek(t.time.date), isoWeek) + a
    ensures Mirrors(daily[t.customerId := map[ConvertTimeToDay(t.time) := Grown(base, a)]],
                    weekly[t.customerId := map[isoWeek(t.time.date) := WeeklyTransactionTotal(total)]],
                    loads + [Load(t.customerId, t.time.date, a)], isoWeek)
  {
    var ct, dt := t.customerId, t.time.date;
    var x := Load(ct, dt, a);
    var daily', weekly' := daily[ct := map[ConvertTimeToDay(t.time) := Grown(base, a)]],
                           weekly[ct := map[isoWeek(dt) := WeeklyTransactionTotal(total)]];
    forall c
      ensures CustomerMirrored(daily', weekly', loads + [x], c, isoWeek)
    {
      assert CustomerMirrored(daily, weekly, loads, c, isoWeek);
      if c == ct {
        AppendLoad(loads, x, c, dt, isoWeek(dt), isoWeek);
        forall i | 0 <= i < |loads + [x]| && (loads + [x])[i].customerId == c
          ensures DateLe((loads + [x])[i].date, dt)
        {
          if i < |loads| {
            assert (loads + [x])[i] == loads[i];
          }
        }
      } else {
        AppendLoad(loads, x, c, dt, isoWeek(dt), isoWeek);
        forall i | 0 <= i < |loads + [x]| && (loads + [x])[i].customerId == c
          ensures (loads + [x])[i] == loads[i]
        {
        }
        match LastDate(loads, c)
        case None =>
        case Some(last) =>
          AppendLoad(loads, x, c, last, isoWeek(last), isoWeek);
      }
    }
  }

  /**
    One event on a mirroring store within the velocity limits: the store afterwards
    mirrors the accepted loads, the event's own load added when it is accepted, and
    the limits still hold.
   */
  lemma {:induction false} OneEventKeepsLimits(s: Tables, loads: seq<Load>, fund: Fund, parse: FloatParser,
                                               isoWeek: IsoWeekOf)
    requires Mirrors(s.daily, s.weekly, loads, isoWeek) && WithinDailyAndWeeklyLimits(loads, isoWeek)
    requires WeeksContiguous(isoWeek)
    requires fund.Decoded? ==> LoadsUpTo(loads, fund.transaction.customerId, fund.transaction.time.date)
    ensures var r := Evaluate(s, fund, parse, isoWeek);
      var loads' := loads + FirstLoad(fund, r.0, parse);
      Mirrors(r.1.daily, r.1.weekly, loads', isoWeek) && WithinDailyAndWeeklyLimits(loads', isoWeek)
  {
    var r := Evaluate(s, fund, parse, isoWeek);
    if IsAccepted(r.0) {
      var t := fund.transaction;
      assert r.0 == Decision(Respond(t, true));
      AcceptedOnlyWithinLimits(s, t, parse, isoWeek);
      var a := ConvertRawValue(t.loadAmount, parse).value;
      var base := Baseline(s, t);
      var total := NewWeek(s, t, a, isoWeek);
      assert LoadOf(t, parse) == Load(t.customerId, t.time.date, a);
      assert CustomerMirrored(s.daily, s.weekly, loads, t.customerId, isoWeek);
      BaselineIsSum(s.daily, s.weekly, s, loads, t, isoWeek);
      assert RecordedOnly(s, t).daily == s.daily && RecordedOnly(s, t).weekly == s.weekly;
      CommitKeepsSumsWithinLimits(loads, LoadOf(t, parse), base, isoWeek,
                                  WeekSum(loads, t.customerId, isoWeek(t.time.date), isoWeek));
      CommitKeepsMirror(s.daily, s.weekly, loads, t, a, base, total, isoWeek);
    } else {
      assert r.1.daily == s.daily && r.1.weekly == s.weekly;
      assert loads + [] == loads;
    }
  }

  // ---------------------------------------------------------------------
  // A stream of events

  /** Loads that precede a stream precede the stream's first event. */
  lemma PrecedeFirst(loads: seq<Load>, funds: seq<Fund>)
    requires LoadsPrecede(loads, funds) && |funds| > 0 && funds[0].Decoded?
    ensures LoadsUpTo(loads, funds[0].transaction.customerId, funds[0].transaction.time.date)
  {
    forall i | 0 <= i < |loads| && loads[i].customerId == funds[0].transaction.customerId
      ensures DateLe(loads[i].date, funds[0].transaction.time.date)
    {
      // LoadsPrecede at j = 0
      assert funds[0].Decoded? && funds[0].transaction.customerId == loads[i].customerId;
    }
  }

  /** With dates in order, the loads so far and the first event's load precede the rest of the stream. */
  lemma PrecedeRest(loads: seq<Load>, funds: seq<Fund>, outcome: Outcome, parse: FloatParser)
    requires DatesInOrder(funds) && LoadsPrecede(loads, funds) && |funds| > 0
    ensures DatesInOrder(funds[1..])
    ensures LoadsPrecede(loads + FirstLoad(funds[0], outcome, parse), funds[1..])
  {
    var loads1 := loads + FirstLoad(funds[0], outcome, parse);
    forall i, j | 0 <= i < |loads1| && 0 <= j < |funds[1..]| && funds[1..][j].Decoded?
                  && funds[1..][j].transaction.customerId == loads1[i].customerId
      ensures DateLe(loads1[i].date, funds[1..][j].transaction.time.date)
    {
      assert funds[1..][j] == funds[j + 1];
      if i >= |loads| {
        assert loads1[i] == LoadOf(funds[0].transaction, parse);
      }
    }
  }

  lemma AcceptedLoadsFirst(funds: seq<Fund>, first: Outcome, rest: seq<Outcome>, parse: FloatParser)
    requires |funds| > 0 && |rest| == |funds| - 1
    ensures AcceptedLoads(funds, [first] + rest, parse) == FirstLoad(funds[0], first, parse) + AcceptedLoads(funds[1..], rest, parse)
  {
    assert ([first] + rest)[1..] == rest;
  }

  /** One event on: the store, the loads and the rest of the stream meet the invariant again. */
  lemma StreamStep(s: Tables, loads: seq<Load>, funds: seq<Fund>, parse: FloatParser, isoWeek: IsoWeekOf)
    requires Mirrors(s.daily, s.weekly, loads, isoWeek) && WithinDailyAndWeeklyLimits(loads, isoWeek)
    requires DatesInOrder(funds) && LoadsPrecede(loads, funds) && WeeksContiguous(isoWeek) && |funds| > 0
    ensures var r := Evaluate(s, funds[0], parse, isoWeek);
      var loads' := loads + FirstLoad(funds[0], r.0, parse);
      && Mirrors(r.1.daily, r.1.weekly, loads', isoWeek) && WithinDailyAndWeeklyLimits(loads', isoWeek)
      && DatesInOrder(funds[1..]) && LoadsPrecede(loads', funds[1..])
  {
    var r := Evaluate(s, funds[0], parse, isoWeek);
    if funds[0].Decoded? {
      PrecedeFirst(loads, funds);
    }
    OneEventKeepsLimits(s, loads, funds[0], parse, isoWeek);
    PrecedeRest(loads, funds, r.0, parse);
  }

  /** The loads accepted over a stream are the first event's followed by the rest's. */
  lemma StreamJoin(s: Tables, loads: seq<Load>, funds: seq<Fund>, parse: FloatParser, isoWeek: IsoWeekOf)
    requires |funds| > 0
    ensures var r := Evaluate(s, funds[0], parse, isoWeek);
      loads + AcceptedLoads(funds, EvaluateAll(s, funds, parse, isoWeek).0, parse)
        == (loads + FirstLoad(funds[0], r.0, parse)) + AcceptedLoads(funds[1..], EvaluateAll(r.1, funds[1..], parse, isoWeek).0, parse)
  {
    var r := Evaluate(s, funds[0], parse, isoWeek);
    var rest := EvaluateAll(r.1, funds[1..], parse, isoWeek).0;
    assert EvaluateAll(s, funds, parse, isoWeek).0 == [r.0] + rest;
    AcceptedLoadsFirst(funds, r.0, rest, parse);
    var now := FirstLoad(funds[0], r.0, parse);
    assert loads + (now + AcceptedLoads(funds[1..], rest, parse)) == (loads + now) + AcceptedLoads(funds[1..], rest, parse);
  }

  lemma {:induction false} StreamKeepsLimits(s: Tables, loads: seq<Load>, funds: seq<Fund>, parse: FloatParser,
                                             isoWeek: IsoWeekOf)
    requires Mirrors(s.daily, s.weekly, loads, isoWeek) && WithinDailyAndWeeklyLimits(loads, isoWeek)
    requires DatesInOrder(funds) && LoadsPrecede(loads, funds) && WeeksContiguous(isoWeek)
    ensures WithinDailyAndWeeklyLimits(loads + AcceptedLoads(funds, EvaluateAll(s, funds, parse, isoWeek).0, parse), isoWeek)
    decreases |funds|
  {
    if funds == [] {
      assert loads + [] == loads;
    } else {
      var r := Evaluate(s, funds[0], parse, isoWeek);
      StreamStep(s, loads, funds, parse, isoWeek);
      StreamKeepsLimits(r.1, loads + FirstLoad(funds[0], r.0, parse), funds[1..], parse, isoWeek);
      StreamJoin(s, loads, funds, parse, isoWeek);
    }
  }

  /**
    From a new store, when each customer's events come with non-decreasing dates, the
    accepted loads of any stream respect the velocity limits: per customer and calendar
    day at most 5000 in total and at most 3 loads, and per ISO week at most 20000.
   */
  lemma {:induction false} StreamWithinDailyAndWeeklyLimits(funds: seq<Fund>, parse: FloatParser, isoWeek: IsoWeekOf)
    requires DatesInOrder(funds) && WeeksContiguous(isoWeek)
    ensures var loads := AcceptedLoads(funds, EvaluateAll(EmptyTables, funds, parse, isoWeek).0, parse);
      && (forall c, d :: DaySum(loads, c, d) <= MaximumValuePerDay)
      && (forall c, d :: DayCount(loads, c, d) <= MaximumTransactionsPerDay)
      && (forall c, w :: WeekSum(loads, c, w, isoWeek) <= MaximumValuePerWeek)
  {
    var loads: seq<Load> := [];
    forall c ensures CustomerMirrored(EmptyTables.daily, EmptyTables.weekly, loads, c, isoWeek) {
    }
    StreamKeepsLimits(EmptyTables, loads, funds, parse, isoWeek);
    assert loads + AcceptedLoads(funds, EvaluateAll(EmptyTables, funds, parse, isoWeek).0, parse)
        == AcceptedLoads(funds, EvaluateAll(EmptyTables, funds, parse, isoWeek).0, parse);
  }

  // ---------------------------------------------------------------------
  // Out of order, the limits fail

  const DayTwo := Date(2020, 1, 2)
  const DayThree := Date(2020, 1, 3)

  /** Customer "c" loads $5000 on January 2, $1 on January 3, then $5000 on January 2 again. */
  const OutOfOrderFunds: seq<Fund> := [
    Decoded(Transaction("a", "c", "$5000", Timestamp(DayTwo, 0))),
    Decoded(Transaction("b", "c", "$1", Timestamp(DayThree, 0))),
    Decoded(Transaction("e", "c", "$5000", Timestamp(DayTwo, 0)))]

  /** The first event starts January 2 and the week at 5000. */
  lemma OutOfOrderFirst(parse: FloatParser, isoWeek: IsoWeekOf)
    requires parse("5000") == Success(5000.0)
    ensures var r := Evaluate(EmptyTables, OutOfOrderFunds[0], parse, isoWeek);
      && IsAccepted(r.0)
      && "c" in r.1.daily && FormatDate(DayThree) !in r.1.daily["c"]
      && "c" in r.1.weekly && isoWeek(DayTwo) in r.1.weekly["c"] && r.1.weekly["c"][isoWeek(DayTwo)].value == 5000.0
      && "b" !in r.1.transactions && "e" !in r.1.transactions
  {
    var ta := OutOfOrderFunds[0].transaction;
    DollarPrefix("5000", parse);
    assert "$5000" == "$" + "5000";
    FormatDateInjective(DayTwo, DayThree);
    WeeklyBootstrap(EmptyTables, ta, parse, isoWeek);
  }

  /** The second event, on January 3, replaces January 2 in the store; the week grows to 5001. */
  lemma OutOfOrderSecond(s: Tables, parse: FloatParser, isoWeek: IsoWeekOf)
    requires parse("1") == Success(1.0)
    requires isoWeek(DayTwo) == isoWeek(DayThree)
    requires "c" in s.daily && FormatDate(DayThree) !in s.daily["c"]
    requires "c" in s.weekly && isoWeek(DayTwo) in s.weekly["c"] && s.weekly["c"][isoWeek(DayTwo)].value == 5000.0
    requires "b" !in s.transactions && "e" !in s.transactions
    ensures var r := Evaluate(s, OutOfOrderFunds[1], parse, isoWeek);
      && IsAccepted(r.0)
      && "c" in r.1.daily && FormatDate(DayTwo) !in r.1.daily["c"]
      && "c" in r.1.weekly && isoWeek(DayTwo) in r.1.weekly["c"] && r.1.weekly["c"][isoWeek(DayTwo)].value == 5001.0
      && "e" !in r.1.transactions
  {
    var tb := OutOfOrderFunds[1].transaction;
    DollarPrefix("1", parse);
    assert "$1" == "$" + "1";
    FormatDateInjective(DayTwo, DayThree);
    assert Baseline(s, tb) == ZeroDaily;
    WeeklyWithinLimit(s, tb, parse, isoWeek);
  }

  /** The third event, on January 2 again, finds no January 2 stored and is accepted from a zero baseline. */
  lemma OutOfOrderThird(s: Tables, parse: FloatParser, isoWeek: IsoWeekOf)
    requires parse("5000") == Success(5000.0)
    requires "c" in s.daily && FormatDate(DayTwo) !in s.daily["c"]
    requires "c" in s.weekly && isoWeek(DayTwo) in s.weekly["c"] && s.weekly["c"][isoWeek(DayTwo)].value == 5001.0
    requires "e" !in s.transactions
    ensures IsAccepted(Evaluate(s, OutOfOrderFunds[2], parse, isoWeek).0)
  {
    var te := OutOfOrderFunds[2].transaction;
    DollarPrefix("5000", parse);
    assert "$5000" == "$" + "5000";
    assert Baseline(s, te) == ZeroDaily;
    WeeklyWithinLimit(s, te, parse, isoWeek);
  }

  /** Three accepted outcomes put 5000 + 5000 on January 2. */
  lemma OutOfOrderSum(outcomes: seq<Outcome>, parse: FloatParser)
    requires parse("5000") == Success(5000.0) && parse("1") == Success(1.0)
    requires |outcomes| == 3 && IsAccepted(outcomes[0]) && IsAccepted(outcomes[1]) && IsAccepted(outcomes[2])
    ensures DaySum(AcceptedLoads(OutOfOrderFunds, outcomes, parse), "c", DayTwo) == 10000.0
  {
    var funds := OutOfOrderFunds;
    DollarPrefix("5000", parse);
    DollarPrefix("1", parse);
    assert "$5000" == "$" + "5000" && "$1" == "$" + "1";
    var la, lb, le := LoadOf(funds[0].transaction, parse), LoadOf(funds[1].transaction, parse),
                      LoadOf(funds[2].transaction, parse);
    assert AcceptedLoads(funds[2..], outcomes[2..], parse) == [le];
    assert AcceptedLoads(funds[1..], outcomes[1..], parse) == [lb, le];
    assert AcceptedLoads(funds, outcomes, parse) == [la, lb, le];
    assert la == Load("c", DayTwo, 5000.0) && lb == Load("c", DayThree, 1.0) && le == Load("c", DayTwo, 5000.0);
    assert [la, lb, le][..2] == [la, lb] && [la, lb][..1] == [la] && [la][..0] == [];
    assert DaySum([la], "c", DayTwo) == 5000.0;
    assert DaySum([la, lb], "c", DayTwo) == 5000.0;
  }

  /**
    With a date that comes back after a later one, the per-day limit fails: writing
    January 3 drops January 2 from the store, so the third event is checked against a
    zero baseline and all three are accepted, 10000 in total on January 2.
   */
  lemma {:induction false} OutOfOrderDayOverLimit(parse: FloatParser, isoWeek: IsoWeekOf)
    requires parse("5000") == Success(5000.0) && parse("1") == Success(1.0)
    requires isoWeek(DayTwo) == isoWeek(DayThree)
    ensures !DatesInOrder(OutOfOrderFunds)
    ensures var outcomes := EvaluateAll(EmptyTables, OutOfOrderFunds, parse, isoWeek).0;
      && |outcomes| == 3
      && IsAccepted(outcomes[0]) && IsAccepted(outcomes[1]) && IsAccepted(outcomes[2])
      && DaySum(AcceptedLoads(OutOfOrderFunds, outcomes, parse), "c", DayTwo) == 10000.0
      && DaySum(AcceptedLoads(OutOfOrderFunds, outcomes, parse), "c", DayTwo) > MaximumValuePerDay
  {
    var funds := OutOfOrderFunds;
    assert !DateLe(funds[1].transaction.time.date, funds[2].transaction.time.date);
    var e0 := Evaluate(EmptyTables, funds[0], parse, isoWeek);
    OutOfOrderFirst(parse, isoWeek);
    var e1 := Evaluate(e0.1, funds[1], parse, isoWeek);
    OutOfOrderSecond(e0.1, parse, isoWeek);
    var e2 := Evaluate(e1.1, funds[2], parse, isoWeek);
    OutOfOrderThird(e1.1, parse, isoWeek);
    assert EvaluateAll(e1.1, funds[2..], parse, isoWeek).0 == [e2.0];
    assert EvaluateAll(e0.1, funds[1..], parse, isoWeek).0 == [e1.0, e2.0];
    assert EvaluateAll(EmptyTables, funds, parse, isoWeek).0 == [e0.0, e1.0, e2.0];
    OutOfOrderSum([e0.0, e1.0, e2.0], parse);
  }
}
