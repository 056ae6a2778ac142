/**
  The records the rule engine and the store exchange (domain/transactions.go),
  the store's typed errors (domain/error.go) and the day-key layout `2006-02-01`,
  which spells a calendar date as year-day-month.
 */
module Domain {
  import opened Wrappers

  /** A calendar date as a decoded RFC 3339 timestamp spells it: four-digit year, month, day of month. */
  type Year = y: int | 0 <= y <= 9999
  type Month = m: int | 1 <= m <= 12 witness 1
  type DayOfMonth = d: int | 1 <= d <= 31 witness 1

  datatype Date = Date(year: Year, month: Month, day: DayOfMonth)

  /** An instant, seen through the calendar of its own time zone; only its date enters the rules. */
  datatype Timestamp = Timestamp(date: Date, secondOfDay: nat)

  datatype Transaction = Transaction(id: string, customerId: string, loadAmount: string, time: Timestamp)

  /** The running aggregate of one customer on one day; `transaction` is carried along but never set by the engine. */
  datatype DailyTransaction = DailyTransaction(transaction: Transaction, transactionCount: int, dailyTotal: real)

  /** The (ISO year, ISO week) key of the weekly aggregate, compared by value. */
  datatype WeeklyTransaction = WeeklyTransaction(year: int, week: int)

  datatype WeeklyTransactionTotal = WeeklyTransactionTotal(value: real)

  datatype TransactionResponse = TransactionResponse(id: string, customerId: string, accepted: bool)

  /** Go's zero values: the zero time.Time is January 1 of year 1. */
  const ZeroTransaction := Transaction("", "", "", Timestamp(Date(1, 1, 1), 0))
  const ZeroDaily := DailyTransaction(ZeroTransaction, 0, 0.0)
  const ZeroWeeklyTotal := WeeklyTransactionTotal(0.0)

  /** The store's typed errors; `Fault` stands for any other error a store may return. */
  datatype StoreError = TransactionAlreadyExist | TransactionEmptyID | NotFound | Fault(cause: string)
  {
    /** The text an error prints as. */
    function Text(): string
    {
      match this
      case TransactionAlreadyExist => "transaction ID already exist"
      case TransactionEmptyID => "transaction must have ID"
      case NotFound => "resource not found"
      case Fault(cause) => cause
    }
  }

  // ---------------------------------------------------------------------
  // The day-key layout "2006-02-01": YYYY-DD-MM, zero padded

  predicate IsDigit(c: char) { '0' <= c <= '9' }

  predicate AllDigits(s: string) { forall i :: 0 <= i < |s| ==> IsDigit(s[i]) }

  function DigitValue(c: char): int { c as int - '0' as int }

  function DigitChar(n: int): (c: char)
    requires 0 <= n <= 9
    ensures IsDigit(c) && DigitValue(c) == n
  {
    (('0' as int) + n) as char
  }

  function Value2(s: string): (n: int)
    requires |s| == 2
    ensures AllDigits(s) ==> 0 <= n <= 99
  {
    10 * DigitValue(s[0]) + DigitValue(s[1])
  }

  function Value4(s: string): (n: int)
    requires |s| == 4
    ensures AllDigits(s) ==> 0 <= n <= 9999
  {
    100 * Value2(s[..2]) + Value2(s[2..])
  }

  /** Two zero-padded decimal digits. */
  function Pad2(n: int): (s: string)
    requires 0 <= n <= 99
    ensures |s| == 2 && AllDigits(s) && Value2(s) == n
  {
    [DigitChar(n / 10), DigitChar(n % 10)]
  }

  /** Four zero-padded decimal digits. */
  function Pad4(n: int): (s: string)
    requires 0 <= n <= 9999
    ensures |s| == 4 && AllDigits(s) && Value4(s) == n
  {
    var s := Pad2(n / 100) + Pad2(n % 100);
    assert s[..2] == Pad2(n / 100) && s[2..] == Pad2(n % 100);
    s
  }

  /** The date written in the layout "2006-02-01": year, then day, then month. */
  function FormatDate(d: Date): string
  {
    Pad4(d.year) + "-" + Pad2(d.day) + "-" + Pad2(d.month)
  }

  /** A key is ten characters: four digits of year, '-', two digits of day, '-', two digits of month. */
  lemma {:induction false} FormatDateShape(d: Date)
    ensures var key := FormatDate(d);
      && |key| == 10 && key[4] == '-' && key[7] == '-'
      && key[..4] == Pad4(d.year) && key[5..7] == Pad2(d.day) && key[8..] == Pad2(d.month)
      && AllDigits(key[..4]) && AllDigits(key[5..7]) && AllDigits(key[8..])
  {
    var key := FormatDate(d);
    assert key[..4] == Pad4(d.year) && key[5..7] == Pad2(d.day) && key[8..] == Pad2(d.month);
  }

  /** Reads a key of the layout "2006-02-01" back into a date; None for anything FormatDate cannot produce. */
  function ParseDate(key: string): Option<Date>
  {
    if |key| == 10 && key[4] == '-' && key[7] == '-'
       && AllDigits(key[..4]) && AllDigits(key[5..7]) && AllDigits(key[8..])
    then
      var year, day, month := Value4(key[..4]), Value2(key[5..7]), Value2(key[8..]);
      if 1 <= month <= 12 && 1 <= day <= 31 then Some(Date(year, month, day)) else None
    else None
  }

  lemma {:induction false} Pad2Value(s: string)
    requires |s| == 2 && AllDigits(s)
    ensures Pad2(Value2(s)) == s
  {
    var n := Value2(s);
    assert n / 10 == DigitValue(s[0]) && n % 10 == DigitValue(s[1]);
  }

  lemma {:induction false} Pad4Value(s: string)
    requires |s| == 4 && AllDigits(s)
    ensures Pad4(Value4(s)) == s
  {
    var hi, lo := Value2(s[..2]), Value2(s[2..]);
    assert 0 <= lo <= 99;
    assert Value4(s) / 100 == hi && Value4(s) % 100 == lo;
    Pad2Value(s[..2]);
    Pad2Value(s[2..]);
    assert s == s[..2] + s[2..];
  }

  /** Every date has exactly one key, and the key gives the date back. */
  lemma {:induction false} ParseFormatDate(d: Date)
    ensures ParseDate(FormatDate(d)) == Some(d)
  {
    FormatDateShape(d);
  }

  /** A key that reads as a date is exactly that date's key. */
  lemma {:induction false} FormatParseDate(key: string)
    requires ParseDate(key).Some?
    ensures FormatDate(ParseDate(key).value) == key
  {
    Pad4Value(key[..4]);
    Pad2Value(key[5..7]);
    Pad2Value(key[8..]);
    var d := ParseDate(key).value;
    var k := FormatDate(d);
    FormatDateShape(d);
    assert k[..4] == key[..4] && k[4..5] == key[4..5] && k[5..7] == key[5..7] && k[7..8] == key[7..8] && k[8..] == key[8..];
    assert k == k[..4] + k[4..5] + k[5..7] + k[7..8] + k[8..];
    assert key == key[..4] + key[4..5] + key[5..7] + key[7..8] + key[8..];
  }

  /** One key per calendar day: two dates share a key exactly when they are the same date. */
  lemma {:induction false} FormatDateInjective(d1: Date, d2: Date)
    ensures FormatDate(d1) == FormatDate(d2) <==> d1 == d2
  {
    ParseFormatDate(d1);
    ParseFormatDate(d2);
  }
}
