/**
  The load-velocity rule engine (handler/handler.go). One decoded event is
  recorded, then checked against the daily total (5000), the daily count (3) and
  the weekly total (20000), in that order; the aggregates are written only when
  every check passes, and exactly one outcome is produced: a decision carrying the
  event's id and customer, or a diagnostic message.
 */
module Handler {
  import opened Wrappers
  import opened Domain
  import opened Memory

  const MaximumValuePerDay: real := 5000.0
  const MaximumTransactionsPerDay: int := 3
  const MaximumValuePerWeek: real := 20000.0

  /** Go's strconv.ParseFloat, a partial function: the value, or the text of its error. */
  type FloatParser = string -> Result<real, string>

  /** Go's time.ISOWeek applied to a local calendar date: (ISO year, ISO week). */
  type IsoWeekOf = Date -> WeeklyTransaction

  /** What the engine receives: a decoded event, or raw bytes that did not decode, with the decoder's error text. */
  datatype Fund = Decoded(transaction: Transaction) | Undecodable(raw: string, cause: string)

  /** The one outcome of an event: a decision on the output channel or a message on the error channel. */
  datatype Outcome = Decision(response: TransactionResponse) | Error(message: string)

  /** The diagnostic format "msg: <context> error: <cause>". */
  function PublishError(message: string, cause: string): string
  {
    "msg: " + message + " error: " + cause
  }

  /** The context and the cause of a diagnostic can be read back at fixed positions. */
  lemma PublishErrorReadsBack(message: string, cause: string)
    ensures var m := PublishError(message, cause);
      && |m| == |message| + |cause| + 13
      && m[..5] == "msg: " && m[5..5 + |message|] == message
      && m[5 + |message|..13 + |message|] == " error: " && m[13 + |message|..] == cause
  {
  }

  /** The response published for a decided event: its id, its customer id and the verdict. */
  function Respond(t: Transaction, accepted: bool): TransactionResponse
  {
    TransactionResponse(t.id, t.customerId, accepted)
  }

  /** The day bucket of a timestamp: its local date in the layout "2006-02-01". */
  function ConvertTimeToDay(time: Timestamp): string
  {
    FormatDate(time.date)
  }

  /** The day key of a timestamp reads back as its local date. */
  lemma DayKeyReadsBack(time: Timestamp)
    ensures ParseDate(ConvertTimeToDay(time)) == Some(time.date)
  {
    ParseFormatDate(time.date);
  }

  // ---------------------------------------------------------------------
  // Amounts

  /** The index of the first occurrence of c in s. */
  function FirstIndex(s: string, c: char): (i: nat)
    requires c in s
    ensures i < |s| && s[i] == c && c !in s[..i]
  {
    if s[0] == c then 0
    else
      var i := 1 + FirstIndex(s[1..], c);
      assert s[..i] == [s[0]] + s[1..][..i - 1];
      i
  }

  /** strings.Replace(s, string(c), "", 1): drops the first occurrence of c, wherever it is. */
  function RemoveFirst(s: string, c: char): string
  {
    if s == [] then []
    else if s[0] == c then s[1..]
    else [s[0]] + RemoveFirst(s[1..], c)
  }

  /** A string without c is unchanged; otherwise exactly the first c is dropped, the rest kept in order. */
  lemma {:induction false} RemoveFirstDropsFirst(s: string, c: char)
    ensures c !in s ==> RemoveFirst(s, c) == s
    ensures c in s ==> RemoveFirst(s, c) == s[..FirstIndex(s, c)] + s[FirstIndex(s, c) + 1..]
  {
    if s != [] && s[0] != c {
      RemoveFirstDropsFirst(s[1..], c);
      if c in s {
        assert c in s[1..];
        var i := FirstIndex(s[1..], c);
        assert FirstIndex(s, c) == 1 + i;
        assert s[..1 + i] == [s[0]] + s[1..][..i];
        assert s[1 + i + 1..] == s[1..][i + 1..];
      } else {
        assert s == [s[0]] + s[1..];
      }
    }
  }

  /** The amount of a raw value such as "$123.45": the first '$' removed, the rest parsed as a float. */
  function ConvertRawValue(raw: string, parse: FloatParser): Result<real, string>
  {
    parse(RemoveFirst(raw, '$'))
  }

  /** A leading '$' is the one removed: "$" + s converts exactly as s parses. */
  lemma DollarPrefix(s: string, parse: FloatParser)
    ensures ConvertRawValue("$" + s, parse) == parse(s)
  {
    assert ("$" + s)[0] == '$' && ("$" + s)[1..] == s;
  }

  /** Without any '$' the raw value is parsed as it stands. */
  lemma NoDollar(raw: string, parse: FloatParser)
    requires '$' !in raw
    ensures ConvertRawValue(raw, parse) == parse(raw)
  {
    RemoveFirstDropsFirst(raw, '$');
  }

  // ---------------------------------------------------------------------
  // The three checks

  /**
    The daily-total check on a baseline aggregate: (true, unchanged) when the new
    total would pass 5000, otherwise (false, aggregate with the amount added).
   */
  function IsMaximumValueLoadPerDay(daily: DailyTransaction, loadAmount: string, parse: FloatParser)
    : (r: Result<(bool, DailyTransaction), string>)
  {
    match ConvertRawValue(loadAmount, parse)
    case Failure(cause) => Failure(cause)
    case Success(amount) =>
      var total := daily.dailyTotal + amount;
      if total > MaximumValuePerDay then Success((true, daily))
      else Success((false, daily.(dailyTotal := daily.dailyTotal + amount)))
  }

  /** The daily-count check: (true, unchanged) when one more would pass 3, otherwise (false, count + 1). */
  function IsMaximumLoadPerDay(daily: DailyTransaction): (r: (bool, DailyTransaction))
    ensures r.0 <==> daily.transactionCount + 1 > MaximumTransactionsPerDay
    ensures r.0 ==> r.1 == daily
    ensures !r.0 ==> r.1 == daily.(transactionCount := daily.transactionCount + 1)
                     && r.1.transactionCount <= MaximumTransactionsPerDay
  {
    if daily.transactionCount + 1 > MaximumTransactionsPerDay then (true, daily)
    else (false, daily.(transactionCount := daily.transactionCount + 1))
  }

  /**
    The daily verdict on the result of the daily lookup: NotFound continues from
    the aggregate the store returned, any other store error is passed on; then the
    total check, then the count check. (valid, aggregate to write) on success.
   */
  function IsLoadPerDayValid(daily: DailyTransaction, lookupErr: Option<StoreError>, loadAmount: string, parse: FloatParser)
    : (r: Result<(bool, DailyTransaction), string>)
  {
    if lookupErr.Some? && lookupErr.value != NotFound then Failure(lookupErr.value.Text())
    else
      match IsMaximumValueLoadPerDay(daily, loadAmount, parse)
      case Failure(cause) => Failure(cause)
      case Success((overTotal, withAmount)) =>
        if overTotal then Success((false, withAmount))
        else
          var (overCount, counted) := IsMaximumLoadPerDay(withAmount);
          Success((!overCount, counted))
  }

  /** The first transaction of a week: the weekly total becomes the amount itself, whatever its size. */
  function HandleWeekNotFoundError(t: Transaction, parse: FloatParser): Result<WeeklyTransactionTotal, string>
  {
    match ConvertRawValue(t.loadAmount, parse)
    case Failure(cause) => Failure(cause)
    case Success(amount) => Success(WeeklyTransactionTotal(amount))
  }

  /**
    The weekly verdict on the result of the weekly lookup: NotFound bootstraps the
    week without a limit check, any other store error is passed on, a found total
    is checked against 20000. (valid, total to write) on success.
   */
  function IsLoadPerWeekValid(total: WeeklyTransactionTotal, lookupErr: Option<StoreError>, t: Transaction, parse: FloatParser)
    : (r: Result<(bool, WeeklyTransactionTotal), string>)
  {
    if lookupErr == Some(NotFound) then
      match HandleWeekNotFoundError(t, parse)
      case Failure(cause) => Failure(cause)
      case Success(first) => Success((true, first))
    else if lookupErr.Some? then Failure(lookupErr.value.Text())
    else
      match ConvertRawValue(t.loadAmount, parse)
      case Failure(cause) => Failure(cause)
      case Success(amount) =>
        if total.value + amount > MaximumValuePerWeek then Success((false, total))
        else Success((true, total.(value := total.value + amount)))
  }

  /** The daily-total check: over exactly when total + amount passes 5000; otherwise the amount is added. */
  lemma DailyTotalVerdict(daily: DailyTransaction, loadAmount: string, parse: FloatParser)
    ensures ConvertRawValue(loadAmount, parse).Failure? ==>
      IsMaximumValueLoadPerDay(daily, loadAmount, parse) == Failure(ConvertRawValue(loadAmount, parse).error)
    ensures ConvertRawValue(loadAmount, parse).Success? ==>
      var amount, r := ConvertRawValue(loadAmount, parse).value, IsMaximumValueLoadPerDay(daily, loadAmount, parse);
      && r.Success?
      && (r.value.0 <==> daily.dailyTotal + amount > MaximumValuePerDay)
      && (r.value.0 ==> r.value.1 == daily)
      && (!r.value.0 ==> r.value.1 == daily.(dailyTotal := daily.dailyTotal + amount)
                         && r.value.1.dailyTotal <= MaximumValuePerDay)
  {
  }

  /**
    The daily verdict: any store error but NotFound is passed on, then a parse error; otherwise
    valid exactly when both the total and the count stay within their limits, and the aggregate
    to write has the amount added and one more load.
   */
  lemma {:induction false} DailyVerdict(daily: DailyTransaction, lookupErr: Option<StoreError>, loadAmount: string,
                                        parse: FloatParser)
    ensures lookupErr.Some? && lookupErr != Some(NotFound) ==>
      IsLoadPerDayValid(daily, lookupErr, loadAmount, parse) == Failure(lookupErr.value.Text())
    ensures (lookupErr.None? || lookupErr == Some(NotFound)) && ConvertRawValue(loadAmount, parse).Failure? ==>
      IsLoadPerDayValid(daily, lookupErr, loadAmount, parse) == Failure(ConvertRawValue(loadAmount, parse).error)
    ensures (lookupErr.None? || lookupErr == Some(NotFound)) && ConvertRawValue(loadAmount, parse).Success? ==>
      var amount, r := ConvertRawValue(loadAmount, parse).value, IsLoadPerDayValid(daily, lookupErr, loadAmount, parse);
      && r.Success?
      && (r.value.0 <==> daily.dailyTotal + amount <= MaximumValuePerDay
                         && daily.transactionCount + 1 <= MaximumTransactionsPerDay)
      && (r.value.0 ==> r.value.1 == daily.(dailyTotal := daily.dailyTotal + amount,
                                            transactionCount := daily.transactionCount + 1))
  {
    DailyTotalVerdict(daily, loadAmount, parse);
  }

  /**
    The weekly verdict: NotFound always passes with the amount as the total; any other store
    error, or a parse error, is passed on; a found total passes exactly when total + amount
    <= 20000, and is then written back grown by the amount.
   */
  lemma WeeklyVerdict(total: WeeklyTransactionTotal, lookupErr: Option<StoreError>, t: Transaction, parse: FloatParser)
    ensures lookupErr.Some? && lookupErr != Some(NotFound) ==>
      IsLoadPerWeekValid(total, lookupErr, t, parse) == Failure(lookupErr.value.Text())
    ensures (lookupErr.None? || lookupErr == Some(NotFound)) && ConvertRawValue(t.loadAmount, parse).Failure? ==>
      IsLoadPerWeekValid(total, lookupErr, t, parse) == Failure(ConvertRawValue(t.loadAmount, parse).error)
    ensures lookupErr == Some(NotFound) && ConvertRawValue(t.loadAmount, parse).Success? ==>
      IsLoadPerWeekValid(total, lookupErr, t, parse)
        == Success((true, WeeklyTransactionTotal(ConvertRawValue(t.loadAmount, parse).value)))
    ensures lookupErr.None? && ConvertRawValue(t.loadAmount, parse).Success? ==>
      var amount, r := ConvertRawValue(t.loadAmount, parse).value, IsLoadPerWeekValid(total, lookupErr, t, parse);
      && r.Success?
      && (r.value.0 <==> total.value + amount <= MaximumValuePerWeek)
      && (r.value.0 ==> r.value.1 == WeeklyTransactionTotal(total.value + amount))
      && (!r.value.0 ==> r.value.1 == total)
  {
  }

  // ---------------------------------------------------------------------
  // One event, as a function of the store's contents

  /**
    The outcome of one event and the store's contents afterwards. A decision
    always names the event it answers, and only an accepted one writes aggregates.
   */
  function Evaluate(s: Tables, fund: Fund, parse: FloatParser, isoWeek: IsoWeekOf): (r: (Outcome, Tables))
    ensures r.0.Decision? ==>
      && fund.Decoded?
      && r.0.response.id == fund.transaction.id && r.0.response.customerId == fund.transaction.customerId
    ensures !(r.0.Decision? && r.0.response.accepted) ==> r.1.daily == s.daily && r.1.weekly == s.weekly
  {
    match fund
    case Undecodable(raw, cause) =>
      (Error(PublishError("error to unmarshal fund " + raw, cause)), s)
    case Decoded(t) =>
      var (recorded, addErr) := s.AddTransaction(t);
      if addErr.Some? then
        (Error(PublishError("error to add transaction with id: " + t.id, addErr.value.Text())), recorded)
      else CheckDay(recorded, t, parse, isoWeek)
  }

  /** The daily step on the tables after recording: the daily lookup and verdict, then the weekly step. */
  function CheckDay(recorded: Tables, t: Transaction, parse: FloatParser, isoWeek: IsoWeekOf): (r: (Outcome, Tables))
    ensures r.0.Decision? ==> r.0.response == Respond(t, r.0.response.accepted)
    ensures !(r.0.Decision? && r.0.response.accepted) ==> r.1 == recorded
  {
    var day := ConvertTimeToDay(t.time);
    var (baseline, dailyErr) := recorded.GetDailyTransaction(t.customerId, day);
    match IsLoadPerDayValid(baseline, dailyErr, t.loadAmount, parse)
    case Failure(cause) =>
      (Error(PublishError("error to validate transaction per day", cause)), recorded)
    case Success((validDay, daily)) =>
      if !validDay then (Decision(Respond(t, false)), recorded)
      else CheckWeekAndCommit(recorded, t, daily, parse, isoWeek)
  }

  /** The weekly step: the weekly lookup and verdict, then the commit of both aggregates on acceptance. */
  function CheckWeekAndCommit(recorded: Tables, t: Transaction, daily: DailyTransaction, parse: FloatParser, isoWeek: IsoWeekOf)
    : (r: (Outcome, Tables))
    ensures r.0.Decision? ==> r.0.response == Respond(t, r.0.response.accepted)
    ensures !(r.0.Decision? && r.0.response.accepted) ==> r.1 == recorded
  {
    var week := isoWeek(t.time.date);
    var (weekTotal, weeklyErr) := recorded.GetWeeklyTransaction(t.customerId, week);
    match IsLoadPerWeekValid(weekTotal, weeklyErr, t, parse)
    case Failure(cause) =>
      (Error(PublishError("error to validate transaction per week", cause)), recorded)
    case Success((validWeek, total)) =>
      if !validWeek then (Decision(Respond(t, false)), recorded)
      else (Decision(Respond(t, true)), Commit(recorded, t, daily, total, isoWeek))
  }

  /** Writes the day's new aggregate, then the week's new total, for the event's customer. */
  function Commit(recorded: Tables, t: Transaction, daily: DailyTransaction, total: WeeklyTransactionTotal,
                  isoWeek: IsoWeekOf): Tables
  {
    recorded.AddDailyTransaction(t.customerId, ConvertTimeToDay(t.time), daily)
            .AddWeeklyTransaction(t.customerId, isoWeek(t.time.date), total)
  }

  /** The handler service: a store it owns, the float parser and the ISO-week calendar it relies on. */
  class HandlerTransactionService {
    const storage: Database
    const parseFloat: FloatParser
    const isoWeek: IsoWeekOf

    constructor New(storage: Database, parseFloat: FloatParser, isoWeek: IsoWeekOf)
      ensures this.storage == storage && this.parseFloat == parseFloat && this.isoWeek == isoWeek
    {
      this.storage := storage;
      this.parseFloat := parseFloat;
      this.isoWeek := isoWeek;
    }

    /** Handles one event against the store, step by step, returning its one outcome. */
    method Transaction(fund: Fund) returns (outcome: Outcome)
      modifies storage
      ensures (outcome, storage.Contents()) == Evaluate(old(storage.Contents()), fund, parseFloat, isoWeek)
    {
      if fund.Undecodable? {
        return Error(PublishError("error to unmarshal fund " + fund.raw, fund.cause));
      }
      var t := fund.transaction;
      var addErr := storage.AddTransaction(t);
      if addErr.Some? {
        return Error(PublishError("error to add transaction with id: " + t.id, addErr.value.Text()));
      }

      var day := ConvertTimeToDay(t.time);
      var baseline, dailyErr := storage.GetDailyTransaction(t.customerId, day);
      var dayCheck := IsLoadPerDayValid(baseline, dailyErr, t.loadAmount, parseFloat);
      if dayCheck.Failure? {
        return Error(PublishError("error to validate transaction per day", dayCheck.error));
      }
      var (validDay, daily) := dayCheck.value;
      if !validDay {
        return Decision(Respond(t, false));
      }

      var week := isoWeek(t.time.date);
      var weekTotal, weeklyErr := storage.GetWeeklyTransaction(t.customerId, week);
      var weekCheck := IsLoadPerWeekValid(weekTotal, weeklyErr, t, parseFloat);
      if weekCheck.Failure? {
        return Error(PublishError("error to validate transaction per week", weekCheck.error));
      }
      var (validWeek, total) := weekCheck.value;
      if !validWeek {
        return Decision(Respond(t, false));
      }

      storage.AddDailyTransaction(t.customerId, day, daily);
      storage.AddWeeklyTransaction(t.customerId, week, total);
      return Decision(Respond(t, true));
    }
  }
}
