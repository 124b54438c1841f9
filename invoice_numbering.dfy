/** Invoice numbers of the form `IB-<year>-<seq>`: a counter per year in
    the `invoice_sequence` table, bumped and formatted on every call. The
    numbers must never repeat, since `invoiceNumber` is a unique column. */
module InvoiceNumbering {
  import opened Wrappers
  import opened Text

  /** The `invoice_sequence` table: the last number issued, by year. */
  type Sequences = map<int, nat>

  /** The stored counter of `year`, or 0 for a year that has no row yet. */
  function LastNumber(sequences: Sequences, year: int): nat {
    if year in sequences then sequences[year] else 0
  }

  /** `String.format("IB-%d-%04d", year, next)` */
  function FormatInvoiceNumber(year: int, next: nat): string {
    "IB-" + IntToString(year) + "-" + ZeroPad(NatToString(next), 4)
  }

  class InvoiceNumberService {
    var sequences: Sequences

    constructor ()
      ensures sequences == map[]
    {
      sequences := map[];
    }

    /** `nextInvoiceNumber`, with the current year passed in. */
    method NextInvoiceNumber(year: int) returns (number: string)
      modifies this
      ensures sequences == Bump(old(sequences), year)
      ensures number == FormatInvoiceNumber(year, LastNumber(old(sequences), year) + 1)
      ensures year !in old(sequences) ==> number == FormatInvoiceNumber(year, 1)
    {
      var last: nat;
      if year in sequences {
        last := sequences[year];
      } else {
        last := 0;
      }
      var next := last + 1;
      sequences := sequences[year := next];
      number := "IB-" + IntToString(year) + "-" + ZeroPad(NatToString(next), 4);
    }
  }

  // ----- Reading a number back -----

  /** The index of the first `-` in `s`, or `|s|` when there is none. */
  function DashIndex(s: string): (k: nat)
    ensures k <= |s| && (k < |s| ==> s[k] == '-')
    ensures forall i :: 0 <= i < k ==> s[i] != '-'
  {
    if s == [] then 0 else if s[0] == '-' then 0 else 1 + DashIndex(s[1..])
  }

  /** The year and the sequence number an invoice number was made from. */
  function ParseInvoiceNumber(s: string): Option<(int, nat)> {
    if |s| < 3 || s[..3] != "IB-" then None
    else
      var negative := |s| > 3 && s[3] == '-';
      var parsed := ParseNumbers(if negative then s[4..] else s[3..]);
      if parsed.None? then None
      else
        var year: int := if negative then -(parsed.value.0 as int) else parsed.value.0;
        Some((year, parsed.value.1))
  }

  /** `<digits>-<digits>` read as two numbers. */
  function ParseNumbers(body: string): Option<(nat, nat)> {
    var k := DashIndex(body);
    if k == 0 || k == |body| || !AllDigits(body[..k]) || !AllDigits(body[k + 1..]) then None
    else Some((DigitsToNat(body[..k]), DigitsToNat(body[k + 1..])))
  }

  /** Two digit strings joined by a dash read back as their values. */
  lemma ParseNumbersOfDigits(a: string, b: string)
    requires a != [] && AllDigits(a) && AllDigits(b)
    ensures ParseNumbers(a + "-" + b) == Some((DigitsToNat(a), DigitsToNat(b)))
  {
    var body := a + "-" + b;
    assert body[|a|] == '-';
    assert forall i :: 0 <= i < |a| ==> body[i] == a[i];
    assert forall i :: 0 <= i < |a| ==> IsDigit(body[i]);
    var k := DashIndex(body);
    assert k == |a|;
    assert body[..k] == a;
    assert body[k + 1..] == b;
  }

  /** `<digits>-<padded digits>` reads back as the two numbers. */
  lemma ParseNumbersRoundTrip(magnitude: nat, next: nat)
    ensures ParseNumbers(NatToString(magnitude) + "-" + ZeroPad(NatToString(next), 4)) == Some((magnitude, next))
  {
    ZeroPadKeepsValue(NatToString(next), 4);
    DigitsRoundTrip(next);
    DigitsRoundTrip(magnitude);
    ParseNumbersOfDigits(NatToString(magnitude), ZeroPad(NatToString(next), 4));
  }

  lemma ParseWithSign(body: string, magnitude: nat, next: nat)
    requires ParseNumbers(body) == Some((magnitude, next))
    ensures ParseInvoiceNumber("IB-" + ("-" + body)) == Some((-(magnitude as int), next))
    ensures body != [] && IsDigit(body[0]) ==> ParseInvoiceNumber("IB-" + body) == Some((magnitude, next))
  {
    var s := "IB-" + ("-" + body);
    assert s[..3] == "IB-" && s[3] == '-' && s[4..] == body;
    if body != [] && IsDigit(body[0]) {
      var t := "IB-" + body;
      assert t[..3] == "IB-" && t[3] == body[0] && t[3..] == body;
    }
  }

  /** Parsing an invoice number gives back the year and the sequence number. */
  lemma ParseFormatRoundTrip(year: int, next: nat)
    ensures ParseInvoiceNumber(FormatInvoiceNumber(year, next)) == Some((year, next))
  {
    var magnitude: nat := if year < 0 then -year else year;
    var body := NatToString(magnitude) + "-" + ZeroPad(NatToString(next), 4);
    ParseNumbersRoundTrip(magnitude, next);
    ParseWithSign(body, magnitude, next);
    FormatSplits(year, next);
  }

  /** Moving the brackets of a formatted number onto its body. */
  lemma Regroup(prefix: string, head: string, tail: string)
    ensures prefix + head + "-" + tail == prefix + (head + "-" + tail)
  {
  }

  /** A formatted number is the prefix, a sign for a negative year, and a
      body that starts with a digit. */
  lemma FormatSplits(year: int, next: nat)
    ensures var magnitude: nat := if year < 0 then -year else year;
      var body := NatToString(magnitude) + "-" + ZeroPad(NatToString(next), 4);
      && IsDigit(body[0])
      && FormatInvoiceNumber(year, next) == if year < 0 then "IB-" + ("-" + body) else "IB-" + body
  {
    var magnitude: nat := if year < 0 then -year else year;
    var digits := NatToString(magnitude);
    var padded := ZeroPad(NatToString(next), 4);
    assert IsDigit(digits[0]);
    assert (digits + "-" + padded)[0] == digits[0];
    if year < 0 {
      assert IntToString(year) == "-" + digits;
      Regroup("IB-", "-" + digits, padded);
      Regroup("-", digits, padded);
    } else {
      assert IntToString(year) == digits;
      Regroup("IB-", digits, padded);
    }
  }

  /** Different (year, sequence number) pairs never share an invoice number. */
  lemma FormatInjective(year1: int, next1: nat, year2: int, next2: nat)
    requires FormatInvoiceNumber(year1, next1) == FormatInvoiceNumber(year2, next2)
    ensures year1 == year2 && next1 == next2
  {
    ParseFormatRoundTrip(year1, next1);
    ParseFormatRoundTrip(year2, next2);
  }

  // ----- Successive calls -----

  /** The table after one call for `year`. */
  function Bump(sequences: Sequences, year: int): Sequences {
    sequences[year := LastNumber(sequences, year) + 1]
  }

  /** A call raises its own year's counter by one, gives that year a row,
      and leaves the rows of every other year as they were. */
  lemma BumpChangesOnlyThatYear(sequences: Sequences, year: int)
    ensures year in Bump(sequences, year)
    ensures LastNumber(Bump(sequences, year), year) == LastNumber(sequences, year) + 1
    ensures forall y :: y != year ==> (y in Bump(sequences, year) <==> y in sequences)
    ensures forall y :: y != year && y in sequences ==> Bump(sequences, year)[y] == sequences[y]
  {
  }

  /** The (year, sequence number) pairs that successive calls for `years`
      issue, starting from `sequences`. */
  function Issued(sequences: Sequences, years: seq<int>): (r: seq<(int, nat)>)
    ensures |r| == |years|
    ensures forall i :: 0 <= i < |r| ==> r[i].0 == years[i] && r[i].1 >= 1
    decreases |years|
  {
    if years == [] then []
    else [(years[0], LastNumber(sequences, years[0]) + 1)] + Issued(Bump(sequences, years[0]), years[1..])
  }

  /** Every number issued for a year lies above the counter the calls started from. */
  lemma {:induction false} IssuedAboveStart(sequences: Sequences, years: seq<int>, i: nat)
    requires i < |years|
    ensures Issued(sequences, years)[i].1 > LastNumber(sequences, years[i])
    decreases |years|
  {
    if i > 0 {
      var y := years[0];
      IssuedAboveStart(Bump(sequences, y), years[1..], i - 1);
      assert LastNumber(Bump(sequences, y), years[i]) >= LastNumber(sequences, years[i]);
    }
  }

  /** Within each year, the sequence numbers of `r` strictly increase. */
  ghost predicate IncreasingWithinYear(r: seq<(int, nat)>) {
    forall i, j :: 0 <= i < j < |r| && r[i].0 == r[j].0 ==> r[i].1 < r[j].1
  }

  /** After the first call, the calls continue from the bumped table. */
  lemma IssuedTail(sequences: Sequences, years: seq<int>, j: nat)
    requires 0 < j < |years|
    ensures Issued(sequences, years)[j] == Issued(Bump(sequences, years[0]), years[1..])[j - 1]
  {
    var tail := Issued(Bump(sequences, years[0]), years[1..]);
    assert Issued(sequences, years) == [(years[0], LastNumber(sequences, years[0]) + 1)] + tail;
  }

  /** The first call's number is below every later number of its year. */
  lemma FirstIssuedIsSmallest(sequences: Sequences, years: seq<int>, j: nat)
    requires 0 < j < |years| && years[j] == years[0]
    ensures Issued(sequences, years)[0].1 < Issued(sequences, years)[j].1
  {
    var y := years[0];
    IssuedTail(sequences, years, j);
    IssuedAboveStart(Bump(sequences, y), years[1..], j - 1);
    assert years[1..][j - 1] == y;
  }

  /** Within one year, later calls return strictly larger sequence numbers. */
  lemma {:induction false} IssuedIncreasing(sequences: Sequences, years: seq<int>)
    ensures IncreasingWithinYear(Issued(sequences, years))
    decreases |years|
  {
    if years != [] {
      var y := years[0];
      var r := Issued(sequences, years);
      var tail := Issued(Bump(sequences, y), years[1..]);
      IssuedIncreasing(Bump(sequences, y), years[1..]);
      forall i, j | 0 <= i < j < |r| && r[i].0 == r[j].0
        ensures r[i].1 < r[j].1
      {
        if i == 0 {
          FirstIssuedIsSmallest(sequences, years, j);
        } else {
          IssuedTail(sequences, years, i);
          IssuedTail(sequences, years, j);
        }
      }
    }
  }

  /** Successive calls never return the same invoice number twice. */
  lemma IssuedNumbersDistinct(sequences: Sequences, years: seq<int>)
    ensures var r := Issued(sequences, years);
      forall i, j :: 0 <= i < j < |r| ==> FormatInvoiceNumber(r[i].0, r[i].1) != FormatInvoiceNumber(r[j].0, r[j].1)
  {
    var r := Issued(sequences, years);
    IssuedIncreasing(sequences, years);
    forall i, j | 0 <= i < j < |r|
      ensures FormatInvoiceNumber(r[i].0, r[i].1) != FormatInvoiceNumber(r[j].0, r[j].1)
    {
      if FormatInvoiceNumber(r[i].0, r[i].1) == FormatInvoiceNumber(r[j].0, r[j].1) {
        FormatInjective(r[i].0, r[i].1, r[j].0, r[j].1);
      }
    }
  }
}
