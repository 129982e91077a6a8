/**
 * logic/erp_plan_from_csv.py `get_erp_plan_from_csv`: one plan record per
 * row of the ERP's CSV file, its amount read by `int(amount or 0)`. A row
 * whose amount is not an integer makes `int` raise `ValueError`, which ends
 * the import.
 */
module ErpPlan {
  import opened Wrappers
  import opened PyStr

  /** A row of the CSV file: `CODE`, `DATE_TO` and `AMOUNT`, as text. */
  datatype PlanRow = PlanRow(code: string, dateTo: string, amount: string)

  /** A record of the plan. */
  datatype PlanRecord = PlanRecord(identity: string, transition: string, date: string, quantity: int)

  predicate IsDigit(c: char)
  {
    '0' <= c <= '9'
  }

  predicate AllDigits(s: string)
  {
    forall i | 0 <= i < |s| :: IsDigit(s[i])
  }

  /** The value of a string of decimal digits, read from the left. */
  function Digits(s: string): nat
    requires AllDigits(s)
  {
    if s == [] then 0
    else
      assert IsDigit(s[|s| - 1]);
      10 * Digits(s[..|s| - 1]) + (s[|s| - 1] as int - '0' as int)
  }

  /** `int(s)` for a decimal literal with an optional sign; `None` where it raises `ValueError`. */
  function ParseInt(s: string): Option<int>
  {
    var signed := |s| > 0 && (s[0] == '+' || s[0] == '-');
    var body := if signed then s[1..] else s;
    if |body| == 0 || !AllDigits(body) then None
    else Some(if signed && s[0] == '-' then -(Digits(body) as int) else Digits(body))
  }

  /** `int(amount or 0)`: an empty amount reads as 0. */
  function Quantity(amount: string): Option<int>
  {
    if amount == "" then Some(0) else ParseInt(amount)
  }

  /** The decimal writing of a natural number. */
  function Decimal(n: nat): (s: string)
    ensures |s| > 0 && AllDigits(s)
  {
    var digit := ['0' + (n % 10) as char];
    if n < 10 then digit else Decimal(n / 10) + digit
  }

  lemma {:induction false} DigitsOfDecimal(n: nat)
    ensures Digits(Decimal(n)) == n
  {
    var digit := ['0' + (n % 10) as char];
    if n >= 10 {
      DigitsOfDecimal(n / 10);
      var s := Decimal(n / 10) + digit;
      assert s[..|s| - 1] == Decimal(n / 10);
    }
  }

  /** Reading back a written integer, with or without its sign, gives it back. */
  lemma ParseDecimal(n: nat)
    ensures ParseInt(Decimal(n)) == Some(n)
    ensures ParseInt("-" + Decimal(n)) == Some(-(n as int))
    ensures ParseInt("+" + Decimal(n)) == Some(n)
  {
    DigitsOfDecimal(n);
    var s := Decimal(n);
    assert ("-" + s)[1..] == s;
    assert ("+" + s)[1..] == s;
  }

  /**
   * `int` accepts exactly a non-empty run of digits, optionally after one
   * `+` or `-`: a decimal fraction, a lone sign or an empty string raise.
   */
  lemma ParseIntAccepts(s: string)
    ensures ParseInt(s).Some? <==>
      (|s| > 0 && AllDigits(s)) || (|s| > 1 && (s[0] == '+' || s[0] == '-') && AllDigits(s[1..]))
    ensures Quantity(s).Some? <==> s == "" || ParseInt(s).Some?
  {
    if |s| > 0 && (s[0] == '+' || s[0] == '-') {
      assert !IsDigit(s[0]);
    }
  }

  /** The record of a row with quantity `q`: the identity keeps the date as written, the date field has dashes. */
  function PlanRecordOf(row: PlanRow, q: int): PlanRecord
  {
    PlanRecord(row.code + "_" + row.dateTo, row.code + "_", ReplaceChar(row.dateTo, '.', '-'), q)
  }

  /** Row `i` is the first whose amount cannot be read, and `e` is that amount. */
  ghost predicate FirstUnreadable(data: seq<PlanRow>, e: string)
  {
    exists i | 0 <= i < |data| :: (Quantity(data[i].amount).None? && e == data[i].amount
      && forall j | 0 <= j < i :: Quantity(data[j].amount).Some?)
  }

  /** A readable first row keeps the first unreadable row of the rest first. */
  lemma FirstUnreadableShift(data: seq<PlanRow>, e: string)
    requires |data| > 0 && Quantity(data[0].amount).Some?
    requires FirstUnreadable(data[1..], e)
    ensures FirstUnreadable(data, e)
  {
    var k :| 0 <= k < |data| - 1 && Quantity(data[1..][k].amount).None? && e == data[1..][k].amount
      && forall j | 0 <= j < k :: Quantity(data[1..][j].amount).Some?;
    forall j | 0 <= j < k + 1 ensures Quantity(data[j].amount).Some? {
      if j > 0 { assert data[j] == data[1..][j - 1]; }
    }
    assert data[k + 1] == data[1..][k];
  }

  /** A readable first row and readable rest make every row readable. */
  lemma AllReadableShift(data: seq<PlanRow>)
    requires |data| > 0 && Quantity(data[0].amount).Some?
    requires forall i | 0 <= i < |data| - 1 :: Quantity(data[1..][i].amount).Some?
    ensures forall i | 0 <= i < |data| :: Quantity(data[i].amount).Some?
  {
    forall i | 0 <= i < |data| ensures Quantity(data[i].amount).Some? {
      if i > 0 { assert data[i] == data[1..][i - 1]; }
    }
  }

  /**
   * The comprehension over the rows: every row's record in order, or the
   * amount of the first row that cannot be read.
   */
  function GetErpPlan(data: seq<PlanRow>): (r: Result<seq<PlanRecord>, string>)
    ensures r.Ok? <==> forall i | 0 <= i < |data| :: Quantity(data[i].amount).Some?
    ensures r.Ok? ==> (|r.value| == |data|
      && forall i | 0 <= i < |data| :: r.value[i] == PlanRecordOf(data[i], Quantity(data[i].amount).value))
    ensures r.Err? ==> FirstUnreadable(data, r.error)
  {
    if data == [] then Ok([])
    else
      match Quantity(data[0].amount)
      case None => Err(data[0].amount)
      case Some(q) =>
        var rest := GetErpPlan(data[1..]);
        if rest.Err? then
          FirstUnreadableShift(data, rest.error);
          Err(rest.error)
        else
          AllReadableShift(data);
          Ok([PlanRecordOf(data[0], q)] + rest.value)
  }
}
