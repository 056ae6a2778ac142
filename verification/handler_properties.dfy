/**
  What the rule engine promises, stated over Handler.Evaluate: the order of the
  checks, what each rejection leaves behind, the weekly bootstrap, and the limits
  every stored aggregate keeps from one event to the next.
 */
module HandlerProperties {
  import opened Wrappers
  import opened Domain
  import opened Memory
  import opened Handler

  /** The event can be recorded: its id is not empty and (id, customer) is new. */
  predicate Recordable(s: Tables, t: Transaction)
  {
    t.id != "" && !s.HasTransaction(t.id, t.customerId)
  }

  /** The aggregate the daily check starts from: the stored one for the event's day, or zero. */
  function Baseline(s: Tables, t: Transaction): DailyTransaction
  {
    s.GetDailyTransaction(t.customerId, ConvertTimeToDay(t.time)).0
  }

  /** A weekly total is stored for the event's customer and ISO week. */
  predicate HasWeek(s: Tables, t: Transaction, isoWeek: IsoWeekOf)
  {
    t.customerId in s.weekly && isoWeek(t.time.date) in s.weekly[t.customerId]
  }

  /** The tables after a rejection: only the record of the event has been added. */
  function RecordedOnly(s: Tables, t: Transaction): Tables
  {
    s.AddTransaction(t).0
  }

  // ---------------------------------------------------------------------
  // Recording comes first

  /** A refused record is a diagnostic, not a decision, and nothing at all changes. */
  lemma RecordFailureIsError(s: Tables, t: Transaction, parse: FloatParser, isoWeek: IsoWeekOf)
    requires !Recordable(s, t)
    ensures Evaluate(s, Decoded(t), parse, isoWeek) ==
      (Error(PublishError("error to add transaction with id: " + t.id,
                          if t.id == "" then "transaction must have ID" else "transaction ID already exist")), s)
  {
  }

  /** Whatever the outcome, a recordable event is recorded before any check and stays recorded. */
  lemma {:induction false} RecordedBeforeChecks(s: Tables, t: Transaction, parse: FloatParser, isoWeek: IsoWeekOf)
    requires Recordable(s, t)
    ensures Evaluate(s, Decoded(t), parse, isoWeek).1.transactions == RecordedOnly(s, t).transactions
    ensures Evaluate(s, Decoded(t), parse, isoWeek).1.HasTransaction(t.id, t.customerId)
  {
  }

  /** Submitting the same (id, customer) again, after any outcome, yields the duplicate error. */
  lemma {:induction false} ResubmitIsError(s: Tables, t: Transaction, parse: FloatParser, isoWeek: IsoWeekOf)
    requires t.id != ""
    ensures var s1 := Evaluate(s, Decoded(t), parse, isoWeek).1;
      Evaluate(s1, Decoded(t), parse, isoWeek) ==
        (Error(PublishError("error to add transaction with id: " + t.id, "transaction ID already exist")), s1)
  {
    if Recordable(s, t) {
      RecordedBeforeChecks(s, t, parse, isoWeek);
    }
  }

  /** An amount that does not parse is a diagnostic (in the daily step), not a rejection; the event stays recorded. */
  lemma ParseFailureIsError(s: Tables, t: Transaction, parse: FloatParser, isoWeek: IsoWeekOf)
    requires Recordable(s, t)
    requires ConvertRawValue(t.loadAmount, parse).Failure?
    ensures Evaluate(s, Decoded(t), parse, isoWeek) ==
      (Error(PublishError("error to validate transaction per day", ConvertRawValue(t.loadAmount, parse).error)),
       RecordedOnly(s, t))
  {
  }

  /** The lookups the engine makes after recording see the same daily and weekly tables as before it. */
  lemma {:induction false} RecordedLookups(s: Tables, t: Transaction, isoWeek: IsoWeekOf)
    requires Recordable(s, t)
    ensures RecordedOnly(s, t).GetDailyTransaction(t.customerId, ConvertTimeToDay(t.time))
         == s.GetDailyTransaction(t.customerId, ConvertTimeToDay(t.time))
    ensures RecordedOnly(s, t).GetWeeklyTransaction(t.customerId, isoWeek(t.time.date))
         == s.GetWeeklyTransaction(t.customerId, isoWeek(t.time.date))
  {
    assert RecordedOnly(s, t).daily == s.daily && RecordedOnly(s, t).weekly == s.weekly;
  }

  /**
    The new weekly total of an event with the given amount: the stored total of its week
    plus the amount, or the amount alone when its week is not stored.
   */
  function NewWeek(s: Tables, t: Transaction, amount: real, isoWeek: IsoWeekOf): real
  {
    if HasWeek(s, t, isoWeek) then s.weekly[t.customerId][isoWeek(t.time.date)].value + amount else amount
  }

  /** The daily aggregate an event that passes the daily checks leaves: the amount added, one more load. */
  function Grown(base: DailyTransaction, amount: real): DailyTransaction
  {
    base.(dailyTotal := base.dailyTotal + amount, transactionCount := base.transactionCount + 1)
  }

  /** A recordable event reaches the daily step with the tables after recording. */
  lemma RecordedReachesDailyStep(s: Tables, t: Transaction, parse: FloatParser, isoWeek: IsoWeekOf)
    requires Recordable(s, t)
    ensures Evaluate(s, Decoded(t), parse, isoWeek) == CheckDay(RecordedOnly(s, t), t, parse, isoWeek)
  {
  }

  /** Passing both daily checks hands the grown aggregate to the weekly step. */
  lemma {:induction false} DailyStepPasses(recorded: Tables, t: Transaction, parse: FloatParser, isoWeek: IsoWeekOf)
    requires ConvertRawValue(t.loadAmount, parse).Success?
    requires Baseline(recorded, t).dailyTotal + ConvertRawValue(t.loadAmount, parse).value <= MaximumValuePerDay
    requires Baseline(recorded, t).transactionCount + 1 <= MaximumTransactionsPerDay
    ensures CheckDay(recorded, t, parse, isoWeek)
         == CheckWeekAndCommit(recorded, t, Grown(Baseline(recorded, t), ConvertRawValue(t.loadAmount, parse).value),
                               parse, isoWeek)
  {
    var (base, dailyErr) := recorded.GetDailyTransaction(t.customerId, ConvertTimeToDay(t.time));
    DailyVerdict(base, dailyErr, t.loadAmount, parse);
    assert IsLoadPerDayValid(base, dailyErr, t.loadAmount, parse)
        == Success((true, Grown(base, ConvertRawValue(t.loadAmount, parse).value)));
  }

  /** A recordable event that passes both daily checks reaches the weekly step with the grown aggregate. */
  lemma {:induction false} ReachesWeeklyStep(s: Tables, t: Transaction, parse: FloatParser, isoWeek: IsoWeekOf)
    requires Recordable(s, t)
    requires ConvertRawValue(t.loadAmount, parse).Success?
    requires Baseline(s, t).dailyTotal + ConvertRawValue(t.loadAmount, parse).value <= MaximumValuePerDay
    requires Baseline(s, t).transactionCount + 1 <= MaximumTransactionsPerDay
    ensures Evaluate(s, Decoded(t), parse, isoWeek)
         == CheckWeekAndCommit(RecordedOnly(s, t), t, Grown(Baseline(s, t), ConvertRawValue(t.loadAmount, parse).value),
                               parse, isoWeek)
  {
    var recorded := RecordedOnly(s, t);
    assert Evaluate(s, Decoded(t), parse, isoWeek) == CheckDay(recorded, t, parse, isoWeek) by {
      RecordedReachesDailyStep(s, t, parse, isoWeek);
    }
    RecordedLookups(s, t, isoWeek);
    DailyStepPasses(recorded, t, parse, isoWeek);
  }

  /** The weekly step for a week with nothing stored: accepted, the week starts at the amount. */
  lemma {:induction false} WeeklyStepBootstrap(recorded: Tables, t: Transaction, daily: DailyTransaction,
                                               parse: FloatParser, isoWeek: IsoWeekOf)
    requires ConvertRawValue(t.loadAmount, parse).Success?
    requires !HasWeek(recorded, t, isoWeek)
    ensures CheckWeekAndCommit(recorded, t, daily, parse, isoWeek).0 == Decision(Respond(t, true))
    ensures CheckWeekAndCommit(recorded, t, daily, parse, isoWeek).1
         == Commit(recorded, t, daily, WeeklyTransactionTotal(ConvertRawValue(t.loadAmount, parse).value), isoWeek)
  {
    assert recorded.GetWeeklyTransaction(t.customerId, isoWeek(t.time.date)) == (ZeroWeeklyTotal, Some(NotFound));
    WeeklyVerdict(ZeroWeeklyTotal, Some(NotFound), t, parse);
  }

  /** The weekly step for a week under way that would pass 20000: rejected, nothing written. */
  lemma {:induction false} WeeklyStepOver(recorded: Tables, t: Transaction, daily: DailyTransaction, prior: real,
                                          parse: FloatParser, isoWeek: IsoWeekOf)
    requires ConvertRawValue(t.loadAmount, parse).Success?
    requires HasWeek(recorded, t, isoWeek) && recorded.weekly[t.customerId][isoWeek(t.time.date)].value == prior
    requires prior + ConvertRawValue(t.loadAmount, parse).value > MaximumValuePerWeek
    ensures CheckWeekAndCommit(recorded, t, daily, parse, isoWeek) == (Decision(Respond(t, false)), recorded)
  {
    var week := isoWeek(t.time.date);
    assert recorded.GetWeeklyTransaction(t.customerId, week) == (WeeklyTransactionTotal(prior), None);
    WeeklyVerdict(WeeklyTransactionTotal(prior), None, t, parse);
  }

  /** The weekly step for a week under way that stays within 20000: accepted, the week's total grows by the amount. */
  lemma {:induction false} WeeklyStepWithin(recorded: Tables, t: Transaction, daily: DailyTransaction, prior: real,
                                            parse: FloatParser, isoWeek: IsoWeekOf)
    requires ConvertRawValue(t.loadAmount, parse).Success?
    requires HasWeek(recorded, t, isoWeek) && recorded.weekly[t.customerId][isoWeek(t.time.date)].value == prior
    requires prior + ConvertRawValue(t.loadAmount, parse).value <= MaximumValuePerWeek
    ensures CheckWeekAndCommit(recorded, t, daily, parse, isoWeek).0 == Decision(Respond(t, true))
    ensures CheckWeekAndCommit(recorded, t, daily, parse, isoWeek).1
         == Commit(recorded, t, daily, WeeklyTransactionTotal(prior + ConvertRawValue(t.loadAmount, parse).value), isoWeek)
  {
    var week := isoWeek(t.time.date);
    assert recorded.GetWeeklyTransaction(t.customerId, week) == (WeeklyTransactionTotal(prior), None);
    WeeklyVerdict(WeeklyTransactionTotal(prior), None, t, parse);
  }


  // ---------------------------------------------------------------------
  // The daily checks

  /** Over the daily total: rejected, nothing but the record written, whatever the weekly tables hold. */
  lemma DailyTotalRule(s: Tables, t: Transaction, parse: FloatParser, isoWeek: IsoWeekOf)
    requires Recordable(s, t)
    requires ConvertRawValue(t.loadAmount, parse).Success?
    requires Baseline(s, t).dailyTotal + ConvertRawValue(t.loadAmount, parse).value > MaximumValuePerDay
    ensures Evaluate(s, Decoded(t), parse, isoWeek) == (Decision(Respond(t, false)), RecordedOnly(s, t))
  {
  }

  /** Within the total but a fourth load of the day: rejected whatever the amount, before any weekly lookup. */
  lemma DailyCountRule(s: Tables, t: Transaction, parse: FloatParser, isoWeek: IsoWeekOf)
    requires Recordable(s, t)
    requires ConvertRawValue(t.loadAmount, parse).Success?
    requires Baseline(s, t).dailyTotal + ConvertRawValue(t.loadAmount, parse).value <= MaximumValuePerDay
    requires Baseline(s, t).transactionCount + 1 > MaximumTransactionsPerDay
    ensures Evaluate(s, Decoded(t), parse, isoWeek) == (Decision(Respond(t, false)), RecordedOnly(s, t))
  {
  }

  /** A day with nothing stored is judged exactly as a stored aggregate with total 0 and count 0 would be. */
  lemma DailyNotFoundIsZero(s: Tables, t: Transaction, parse: FloatParser, isoWeek: IsoWeekOf)
    requires s.GetDailyTransaction(t.customerId, ConvertTimeToDay(t.time)).1 == Some(NotFound)
    ensures var zeroed := s.AddDailyTransaction(t.customerId, ConvertTimeToDay(t.time), ZeroDaily);
      Evaluate(s, Decoded(t), parse, isoWeek).0 == Evaluate(zeroed, Decoded(t), parse, isoWeek).0
  {
    var day := ConvertTimeToDay(t.time);
    var zeroed := s.AddDailyTransaction(t.customerId, day, ZeroDaily);
    assert zeroed.transactions == s.transactions && zeroed.weekly == s.weekly;
    assert zeroed.GetDailyTransaction(t.customerId, day) == (ZeroDaily, None);
    if Recordable(s, t) {
      RecordedLookups(s, t, isoWeek);
      RecordedLookups(zeroed, t, isoWeek);
      assert IsLoadPerDayValid(ZeroDaily, Some(NotFound), t.loadAmount, parse)
          == IsLoadPerDayValid(ZeroDaily, None, t.loadAmount, parse);
    }
  }

  // ---------------------------------------------------------------------
  // The weekly check

  /**
    First load of an ISO week that passes the daily checks: accepted; the day's aggregate
    grows and the week starts at the amount, whatever its size.
   */
  lemma WeeklyBootstrap(s: Tables, t: Transaction, parse: FloatParser, isoWeek: IsoWeekOf)
    requires Recordable(s, t)
    requires ConvertRawValue(t.loadAmount, parse).Success?
    requires Baseline(s, t).dailyTotal + ConvertRawValue(t.loadAmount, parse).value <= MaximumValuePerDay
    requires Baseline(s, t).transactionCount + 1 <= MaximumTransactionsPerDay
    requires !HasWeek(s, t, isoWeek)
    ensures Evaluate(s, Decoded(t), parse, isoWeek).0 == Decision(Respond(t, true))
    ensures var amount := ConvertRawValue(t.loadAmount, parse).value;
      Evaluate(s, Decoded(t), parse, isoWeek).1
        == Commit(RecordedOnly(s, t), t, Grown(Baseline(s, t), amount), WeeklyTransactionTotal(amount), isoWeek)
  {
    var recorded := RecordedOnly(s, t);
    ReachesWeeklyStep(s, t, parse, isoWeek);
    assert recorded.weekly == s.weekly;
    WeeklyStepBootstrap(recorded, t, Grown(Baseline(s, t), ConvertRawValue(t.loadAmount, parse).value), parse, isoWeek);
  }

  /** A week already under way that would pass 20000: rejected, nothing but the record written. */
  lemma WeeklyOverLimit(s: Tables, t: Transaction, parse: FloatParser, isoWeek: IsoWeekOf)
    requires Recordable(s, t)
    requires ConvertRawValue(t.loadAmount, parse).Success?
    requires Baseline(s, t).dailyTotal + ConvertRawValue(t.loadAmount, parse).value <= MaximumValuePerDay
    requires Baseline(s, t).transactionCount + 1 <= MaximumTransactionsPerDay
    requires HasWeek(s, t, isoWeek)
    requires s.weekly[t.customerId][isoWeek(t.time.date)].value + ConvertRawValue(t.loadAmount, parse).value
             > MaximumValuePerWeek
    ensures Evaluate(s, Decoded(t), parse, isoWeek) == (Decision(Respond(t, false)), RecordedOnly(s, t))
  {
    var recorded := RecordedOnly(s, t);
    ReachesWeeklyStep(s, t, parse, isoWeek);
    assert recorded.weekly == s.weekly;
    WeeklyStepOver(recorded, t, Grown(Baseline(s, t), ConvertRawValue(t.loadAmount, parse).value),
                   s.weekly[t.customerId][isoWeek(t.time.date)].value, parse, isoWeek);
  }

  /** A week already under way that stays within 20000: accepted, the day's aggregate and the week's total grow by the amount. */
  lemma WeeklyWithinLimit(s: Tables, t: Transaction, parse: FloatParser, isoWeek: IsoWeekOf)
    requires Recordable(s, t)
    requires ConvertRawValue(t.loadAmount, parse).Success?
    requires Baseline(s, t).dailyTotal + ConvertRawValue(t.loadAmount, parse).value <= MaximumValuePerDay
    requires Baseline(s, t).transactionCount + 1 <= MaximumTransactionsPerDay
    requires HasWeek(s, t, isoWeek)
    requires s.weekly[t.customerId][isoWeek(t.time.date)].value + ConvertRawValue(t.loadAmount, parse).value
             <= MaximumValuePerWeek
    ensures Evaluate(s, Decoded(t), parse, isoWeek).0 == Decision(Respond(t, true))
    ensures var amount := ConvertRawValue(t.loadAmount, parse).value;
      Evaluate(s, Decoded(t), parse, isoWeek).1
        == Commit(RecordedOnly(s, t), t, Grown(Baseline(s, t), amount),
                  WeeklyTransactionTotal(s.weekly[t.customerId][isoWeek(t.time.date)].value + amount), isoWeek)
  {
    var recorded := RecordedOnly(s, t);
    ReachesWeeklyStep(s, t, parse, isoWeek);
    assert recorded.weekly == s.weekly;
    WeeklyStepWithin(recorded, t, Grown(Baseline(s, t), ConvertRawValue(t.loadAmount, parse).value),
                     s.weekly[t.customerId][isoWeek(t.time.date)].value, parse, isoWeek);
  }

  /**
    The converse of the rules above: an accepted event was recordable, parsed, passed
    both daily checks and, when its week was under way, the weekly check; and the store
    then holds the new daily aggregate and the new weekly total for its customer.
   */
  lemma {:induction false} AcceptedOnlyWithinLimits(s: Tables, t: Transaction, parse: FloatParser, isoWeek: IsoWeekOf)
    requires Evaluate(s, Decoded(t), parse, isoWeek).0 == Decision(Respond(t, true))
    ensures Recordable(s, t) && ConvertRawValue(t.loadAmount, parse).Success?
    ensures Baseline(s, t).dailyTotal + ConvertRawValue(t.loadAmount, parse).value <= MaximumValuePerDay
    ensures Baseline(s, t).transactionCount + 1 <= MaximumTransactionsPerDay
    ensures HasWeek(s, t, isoWeek) ==> NewWeek(s, t, ConvertRawValue(t.loadAmount, parse).value, isoWeek) <= MaximumValuePerWeek
    ensures var amount := ConvertRawValue(t.loadAmount, parse).value;
      Evaluate(s, Decoded(t), parse, isoWeek).1
      == Commit(RecordedOnly(s, t), t, Grown(Baseline(s, t), amount),
                WeeklyTransactionTotal(NewWeek(s, t, amount, isoWeek)), isoWeek)
  {
    if !Recordable(s, t) {
      RecordFailureIsError(s, t, parse, isoWeek);
    } else if ConvertRawValue(t.loadAmount, parse).Failure? {
      ParseFailureIsError(s, t, parse, isoWeek);
    } else {
      var amount, base := ConvertRawValue(t.loadAmount, parse).value, Baseline(s, t);
      if base.dailyTotal + amount > MaximumValuePerDay {
        DailyTotalRule(s, t, parse, isoWeek);
      } else if base.transactionCount + 1 > MaximumTransactionsPerDay {
        DailyCountRule(s, t, parse, isoWeek);
      } else if HasWeek(s, t, isoWeek) {
        if s.weekly[t.customerId][isoWeek(t.time.date)].value + amount > MaximumValuePerWeek {
          WeeklyOverLimit(s, t, parse, isoWeek);
        } else {
          WeeklyWithinLimit(s, t, parse, isoWeek);
        }
      } else {
        WeeklyBootstrap(s, t, parse, isoWeek);
      }
    }
  }

  // ---------------------------------------------------------------------
  // The limits the stored aggregates keep

  /**
    Every stored daily aggregate is within 5000 and 3 loads, every stored weekly total
    within 20000, and a customer with a stored day also has the week of that day stored.
   */
  ghost predicate WithinLimits(s: Tables, isoWeek: IsoWeekOf)
  {
    AggregatesWithinLimits(s.daily, s.weekly, isoWeek)
  }

  ghost predicate AggregatesWithinLimits(daily: map<string, map<string, DailyTransaction>>,
                                         weekly: map<string, map<WeeklyTransaction, WeeklyTransactionTotal>>,
                                         isoWeek: IsoWeekOf)
  {
    DaysWithinLimits(daily) && DaysHaveWeeks(daily, weekly, isoWeek) && WeeksWithinLimits(weekly)
  }

  /** Every stored daily aggregate is within 5000 and 3 loads. */
  ghost predicate DaysWithinLimits(daily: map<string, map<string, DailyTransaction>>)
  {
    forall c, day | c in daily && day in daily[c] :: DayWithinLimits(daily, c, day)
  }

  /** The stored aggregate of (c, day) is within 5000 and 3 loads. */
  ghost predicate DayWithinLimits(daily: map<string, map<string, DailyTransaction>>, c: string, day: string)
    requires c in daily && day in daily[c]
  {
    && 0 <= daily[c][day].transactionCount <= MaximumTransactionsPerDay
    && daily[c][day].dailyTotal <= MaximumValuePerDay
  }

  /** A customer with a stored day also has the ISO week of that day stored. */
  ghost predicate DaysHaveWeeks(daily: map<string, map<string, DailyTransaction>>,
                                weekly: map<string, map<WeeklyTransaction, WeeklyTransactionTotal>>,
                                isoWeek: IsoWeekOf)
  {
    forall c, d: Date | c in daily && FormatDate(d) in daily[c] :: c in weekly && isoWeek(d) in weekly[c]
  }

  /** Every stored weekly total is within 20000. */
  ghost predicate WeeksWithinLimits(weekly: map<string, map<WeeklyTransaction, WeeklyTransactionTotal>>)
  {
    forall c, week | c in weekly && week in weekly[c] :: weekly[c][week].value <= MaximumValuePerWeek
  }

  /** A stored day implies its week is stored, so the weekly bootstrap only starts from a zero daily baseline. */
  lemma {:induction false} BootstrapStartsFromZero(s: Tables, t: Transaction, isoWeek: IsoWeekOf)
    requires WithinLimits(s, isoWeek)
    requires !HasWeek(s, t, isoWeek)
    ensures Baseline(s, t) == ZeroDaily
  {
    var day := ConvertTimeToDay(t.time);
    if t.customerId in s.daily && day in s.daily[t.customerId] {
      assert false;
    }
  }

  /** Writing the new aggregates of an event that passed the checks keeps every stored aggregate within its limits. */
  lemma {:induction false} CommitPreservesLimits(s: Tables, t: Transaction, daily: DailyTransaction,
                                                 total: WeeklyTransactionTotal, isoWeek: IsoWeekOf)
    requires WithinLimits(s, isoWeek)
    requires 0 <= daily.transactionCount <= MaximumTransactionsPerDay && daily.dailyTotal <= MaximumValuePerDay
    requires total.value <= MaximumValuePerWeek
    ensures WithinLimits(Commit(s, t, daily, total, isoWeek), isoWeek)
  {
    var c, day, week := t.customerId, ConvertTimeToDay(t.time), isoWeek(t.time.date);
    var s' := Commit(s, t, daily, total, isoWeek);
    assert s'.daily == s.daily[c := map[day := daily]];
    assert s'.weekly == s.weekly[c := map[week := total]];
    DaysStayWithinLimits(s.daily, c, day, daily);
    DaysKeepWeeks(s.daily, s.weekly, isoWeek, t, daily, total);
    WeeksStayWithinLimits(s.weekly, c, week, total);
  }

  /** Replacing a customer's days by one day within limits keeps every day within limits. */
  lemma {:induction false} DaysStayWithinLimits(daily: map<string, map<string, DailyTransaction>>, c: string,
                                                day: string, agg: DailyTransaction)
    requires DaysWithinLimits(daily)
    requires 0 <= agg.transactionCount <= MaximumTransactionsPerDay && agg.dailyTotal <= MaximumValuePerDay
    ensures DaysWithinLimits(daily[c := map[day := agg]])
  {
    var daily' := daily[c := map[day := agg]];
    forall c', day' | c' in daily' && day' in daily'[c']
      ensures DayWithinLimits(daily', c', day')
    {
      if c' != c {
        assert DayWithinLimits(daily, c', day');
      }
    }
  }

  /** Writing the day of an event together with its week keeps every stored day's week stored. */
  lemma {:induction false} DaysKeepWeeks(daily: map<string, map<string, DailyTransaction>>,
                                         weekly: map<string, map<WeeklyTransaction, WeeklyTransactionTotal>>,
                                         isoWeek: IsoWeekOf, t: Transaction, agg: DailyTransaction,
                                         total: WeeklyTransactionTotal)
    requires DaysHaveWeeks(daily, weekly, isoWeek)
    ensures DaysHaveWeeks(daily[t.customerId := map[ConvertTimeToDay(t.time) := agg]],
                          weekly[t.customerId := map[isoWeek(t.time.date) := total]], isoWeek)
  {
    var c := t.customerId;
    var daily', weekly' := daily[c := map[ConvertTimeToDay(t.time) := agg]], weekly[c := map[isoWeek(t.time.date) := total]];
    forall c', d: Date | c' in daily' && FormatDate(d) in daily'[c']
      ensures c' in weekly' && isoWeek(d) in weekly'[c']
    {
      if c' == c {
        FormatDateInjective(d, t.time.date);
      }
    }
  }

  /** Replacing a customer's weeks by one week within 20000 keeps every week within limits. */
  lemma {:induction false} WeeksStayWithinLimits(weekly: map<string, map<WeeklyTransaction, WeeklyTransactionTotal>>,
                                                 c: string, week: WeeklyTransaction, total: WeeklyTransactionTotal)
    requires WeeksWithinLimits(weekly)
    requires total.value <= MaximumValuePerWeek
    ensures WeeksWithinLimits(weekly[c := map[week := total]])
  {
  }

  /** The daily baseline of a store within limits has a count of at least 0 (a stored one, or zero). */
  lemma {:induction false} BaselineCountNonNegative(s: Tables, t: Transaction, isoWeek: IsoWeekOf)
    requires WithinLimits(s, isoWeek)
    ensures 0 <= Baseline(s, t).transactionCount
  {
    var c, day := t.customerId, ConvertTimeToDay(t.time);
    if c in s.daily && day in s.daily[c] {
      assert DayWithinLimits(s.daily, c, day);
    }
  }

  /** Recording an event touches no aggregate, so it keeps the store within limits. */
  lemma {:induction false} RecordedWithinLimits(s: Tables, t: Transaction, isoWeek: IsoWeekOf)
    requires WithinLimits(s, isoWeek)
    ensures WithinLimits(RecordedOnly(s, t), isoWeek)
  {
    assert RecordedOnly(s, t).daily == s.daily && RecordedOnly(s, t).weekly == s.weekly;
  }

  /** Writing the aggregates of an event that passed every check keeps the store within limits. */
  lemma {:induction false} PassedCommitWithinLimits(s: Tables, t: Transaction, amount: real, isoWeek: IsoWeekOf)
    requires WithinLimits(s, isoWeek)
    requires Baseline(s, t).dailyTotal + amount <= MaximumValuePerDay
    requires Baseline(s, t).transactionCount + 1 <= MaximumTransactionsPerDay
    requires HasWeek(s, t, isoWeek) ==> NewWeek(s, t, amount, isoWeek) <= MaximumValuePerWeek
    ensures WithinLimits(Commit(RecordedOnly(s, t), t, Grown(Baseline(s, t), amount),
                                WeeklyTransactionTotal(NewWeek(s, t, amount, isoWeek)), isoWeek), isoWeek)
  {
    if !HasWeek(s, t, isoWeek) {
      BootstrapStartsFromZero(s, t, isoWeek);
    }
    BaselineCountNonNegative(s, t, isoWeek);
    RecordedWithinLimits(s, t, isoWeek);
    CommitPreservesLimits(RecordedOnly(s, t), t, Grown(Baseline(s, t), amount),
                          WeeklyTransactionTotal(NewWeek(s, t, amount, isoWeek)), isoWeek);
  }

  /** An accepted event keeps every stored aggregate within its limits. */
  lemma {:induction false} AcceptedPreservesLimits(s: Tables, t: Transaction, parse: FloatParser, isoWeek: IsoWeekOf)
    requires WithinLimits(s, isoWeek)
    requires Evaluate(s, Decoded(t), parse, isoWeek).0 == Decision(Respond(t, true))
    ensures WithinLimits(Evaluate(s, Decoded(t), parse, isoWeek).1, isoWeek)
  {
    AcceptedOnlyWithinLimits(s, t, parse, isoWeek);
    PassedCommitWithinLimits(s, t, ConvertRawValue(t.loadAmount, parse).value, isoWeek);
  }

  /** One event keeps every stored aggregate within its limits. */
  lemma {:induction false} EvaluatePreservesLimits(s: Tables, fund: Fund, parse: FloatParser, isoWeek: IsoWeekOf)
    requires WithinLimits(s, isoWeek)
    ensures WithinLimits(Evaluate(s, fund, parse, isoWeek).1, isoWeek)
  {
    var r := Evaluate(s, fund, parse, isoWeek);
    if r.0.Decision? && r.0.response.accepted {
      assert r.0 == Decision(Respond(fund.transaction, true));
      AcceptedPreservesLimits(s, fund.transaction, parse, isoWeek);
    } else {
      assert r.1.daily == s.daily && r.1.weekly == s.weekly;
    }
  }

  // ---------------------------------------------------------------------
  // A stream of events, one at a time

  /** The outcomes of a stream of events handled strictly one after the other, and the store afterwards. */
  function EvaluateAll(s: Tables, funds: seq<Fund>, parse: FloatParser, isoWeek: IsoWeekOf): (r: (seq<Outcome>, Tables))
    ensures |r.0| == |funds|
    ensures forall i :: 0 <= i < |funds| && r.0[i].Decision? ==>
      funds[i].Decoded? && r.0[i].response.id == funds[i].transaction.id
      && r.0[i].response.customerId == funds[i].transaction.customerId
    decreases |funds|
  {
    if funds == [] then ([], s)
    else
      var (first, s1) := Evaluate(s, funds[0], parse, isoWeek);
      var (rest, s2) := EvaluateAll(s1, funds[1..], parse, isoWeek);
      ([first] + rest, s2)
  }

  /** Starting from the empty store, or any store within limits, every stored aggregate stays within its limits. */
  lemma {:induction false} EvaluateAllPreservesLimits(s: Tables, funds: seq<Fund>, parse: FloatParser, isoWeek: IsoWeekOf)
    requires WithinLimits(s, isoWeek)
    ensures WithinLimits(EvaluateAll(s, funds, parse, isoWeek).1, isoWeek)
    decreases |funds|
  {
    if funds != [] {
      EvaluatePreservesLimits(s, funds[0], parse, isoWeek);
      EvaluateAllPreservesLimits(Evaluate(s, funds[0], parse, isoWeek).1, funds[1..], parse, isoWeek);
    }
  }

  lemma EmptyStoreWithinLimits(isoWeek: IsoWeekOf)
    ensures WithinLimits(EmptyTables, isoWeek)
  {
  }

  // ---------------------------------------------------------------------
  // The handler's own scenarios, each with its store contents and the parse of its amount

  /** Stored daily total 2500.00, a load of "$2500.01": rejected, nothing but the record written. */
  lemma InvalidDailyAmountScenario(s: Tables, t: Transaction, parse: FloatParser, isoWeek: IsoWeekOf)
    requires Recordable(s, t)
    requires t.loadAmount == "$2500.01" && parse("2500.01") == Success(2500.01)
    requires s.GetDailyTransaction(t.customerId, ConvertTimeToDay(t.time)) == (ZeroDaily.(dailyTotal := 2500.0), None)
    ensures Evaluate(s, Decoded(t), parse, isoWeek) == (Decision(Respond(t, false)), RecordedOnly(s, t))
  {
    DollarPrefix("2500.01", parse);
    assert "$2500.01" == "$" + "2500.01";
    DailyTotalRule(s, t, parse, isoWeek);
  }

  /** Stored daily total 2500.00 and weekly total 2500.00, a load of "$2500.00": accepted, the week now holds 5000. */
  lemma ValidDailyAmountScenario(s: Tables, t: Transaction, parse: FloatParser, isoWeek: IsoWeekOf)
    requires Recordable(s, t)
    requires t.loadAmount == "$2500.00" && parse("2500.00") == Success(2500.0)
    requires s.GetDailyTransaction(t.customerId, ConvertTimeToDay(t.time)) == (ZeroDaily.(dailyTotal := 2500.0), None)
    requires s.GetWeeklyTransaction(t.customerId, isoWeek(t.time.date)) == (WeeklyTransactionTotal(2500.0), None)
    ensures var r := Evaluate(s, Decoded(t), parse, isoWeek);
      && r.0 == Decision(Respond(t, true))
      && r.1.GetWeeklyTransaction(t.customerId, isoWeek(t.time.date)) == (WeeklyTransactionTotal(5000.0), None)
      && r.1.GetDailyTransaction(t.customerId, ConvertTimeToDay(t.time))
         == (ZeroDaily.(dailyTotal := 5000.0, transactionCount := 1), None)
  {
    DollarPrefix("2500.00", parse);
    assert "$2500.00" == "$" + "2500.00";
    WeeklyWithinLimit(s, t, parse, isoWeek);
  }

  /** Three loads already stored for the day, a load of "$2": rejected on the count, before any weekly lookup. */
  lemma InvalidDailyCountScenario(s: Tables, t: Transaction, parse: FloatParser, isoWeek: IsoWeekOf)
    requires Recordable(s, t)
    requires t.loadAmount == "$2" && parse("2") == Success(2.0)
    requires s.GetDailyTransaction(t.customerId, ConvertTimeToDay(t.time)) == (ZeroDaily.(transactionCount := 3), None)
    ensures Evaluate(s, Decoded(t), parse, isoWeek) == (Decision(Respond(t, false)), RecordedOnly(s, t))
  {
    DollarPrefix("2", parse);
    assert "$2" == "$" + "2";
    DailyCountRule(s, t, parse, isoWeek);
  }

  /** Two loads stored for the day and weekly total 17501, a load of "$2500.00": rejected on the week. */
  lemma InvalidWeeklyAmountScenario(s: Tables, t: Transaction, parse: FloatParser, isoWeek: IsoWeekOf)
    requires Recordable(s, t)
    requires t.loadAmount == "$2500.00" && parse("2500.00") == Success(2500.0)
    requires s.GetDailyTransaction(t.customerId, ConvertTimeToDay(t.time)) == (ZeroDaily.(transactionCount := 2), None)
    requires s.GetWeeklyTransaction(t.customerId, isoWeek(t.time.date)) == (WeeklyTransactionTotal(17501.0), None)
    ensures Evaluate(s, Decoded(t), parse, isoWeek) == (Decision(Respond(t, false)), RecordedOnly(s, t))
  {
    DollarPrefix("2500.00", parse);
    assert "$2500.00" == "$" + "2500.00";
    WeeklyOverLimit(s, t, parse, isoWeek);
  }
}
