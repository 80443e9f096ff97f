/** String building used by the error normaliser: joining provider messages
    with ", ", the inverse split, and the decimal rendering of a status code
    (Go's `strconv.Itoa`). */
module Text {
  import opened Wrappers

  /** The separator placed between nested provider messages. */
  const Separator: string := ", "

  /** Reference definition: `parts` joined by ", ", no leading or trailing separator. */
  function Join(parts: seq<string>): string
  {
    if |parts| == 0 then ""
    else if |parts| == 1 then parts[0]
    else parts[0] + Separator + Join(parts[1..])
  }

  /** Every part followed by a separator: what the loop has built before its last step. */
  function JoinTerminated(parts: seq<string>): string
  {
    if |parts| == 0 then "" else parts[0] + Separator + JoinTerminated(parts[1..])
  }

  /** Joining n+1 parts is the n terminated parts followed by the last one:
      the separator never follows the final entry. */
  lemma {:induction false} JoinSnoc(parts: seq<string>, last: string)
    ensures Join(parts + [last]) == JoinTerminated(parts) + last
    decreases |parts|
  {
    if |parts| == 0 {
      assert parts + [last] == [last];
    } else {
      var rest := parts[1..];
      assert (parts + [last])[1..] == rest + [last];
      JoinSnoc(rest, last);
      if |rest| == 0 {
        assert JoinTerminated(rest) == "";
      }
    }
  }

  /** Extending the terminated join by one part appends that part and a separator. */
  lemma {:induction false} TerminatedSnoc(parts: seq<string>, next: string)
    ensures JoinTerminated(parts + [next]) == JoinTerminated(parts) + next + Separator
    decreases |parts|
  {
    if |parts| == 0 {
      assert parts + [next] == [next];
    } else {
      assert (parts + [next])[1..] == parts[1..] + [next];
      TerminatedSnoc(parts[1..], next);
    }
  }

  /** The join of several parts ends with the last part, preceded by exactly one separator. */
  lemma {:induction false} JoinLast(parts: seq<string>)
    requires |parts| >= 2
    ensures Join(parts) == Join(parts[..|parts| - 1]) + Separator + parts[|parts| - 1]
  {
    var init := parts[..|parts| - 1];
    var last := parts[|parts| - 1];
    assert parts == init + [last];
    JoinSnoc(init, last);
    TerminatedIsJoinPlusSeparator(init);
  }

  lemma {:induction false} TerminatedIsJoinPlusSeparator(parts: seq<string>)
    requires |parts| >= 1
    ensures JoinTerminated(parts) == Join(parts) + Separator
    decreases |parts|
  {
    if |parts| > 1 {
      TerminatedIsJoinPlusSeparator(parts[1..]);
    }
  }

  /** The join is empty exactly when there is nothing to join or a single empty part:
      two or more parts always leave at least one separator behind. */
  lemma {:induction false} JoinEmptyIff(parts: seq<string>)
    ensures Join(parts) == "" <==> (|parts| == 0 || (|parts| == 1 && parts[0] == ""))
  {
    if |parts| >= 2 {
      assert |Join(parts)| >= |Separator|;
    }
  }

  /** Number of occurrences of `c` in `s`. */
  function Count(c: char, s: string): nat
  {
    if |s| == 0 then 0 else (if s[0] == c then 1 else 0) + Count(c, s[1..])
  }

  /** Total occurrences of `c` over all parts. */
  function CountAll(c: char, parts: seq<string>): nat
  {
    if |parts| == 0 then 0 else Count(c, parts[0]) + CountAll(c, parts[1..])
  }

  lemma {:induction false} CountAppend(c: char, a: string, b: string)
    ensures Count(c, a + b) == Count(c, a) + Count(c, b)
    decreases |a|
  {
    if |a| == 0 {
      assert a + b == b;
    } else {
      assert (a + b)[1..] == a[1..] + b;
      CountAppend(c, a[1..], b);
    }
  }

  /** Joining n >= 1 parts adds exactly n-1 commas to those already in the parts. */
  lemma {:induction false} JoinCommaCount(parts: seq<string>)
    requires |parts| >= 1
    ensures Count(',', Join(parts)) == CountAll(',', parts) + |parts| - 1
    decreases |parts|
  {
    if |parts| >= 2 {
      JoinCommaCount(parts[1..]);
      CountAppend(',', parts[0], Separator);
      CountAppend(',', parts[0] + Separator, Join(parts[1..]));
      assert Count(',', Separator) == 1;
    }
  }

  /** Splits at every ", ", accumulating the current piece in `cur`. */
  function SplitFrom(s: string, cur: string): seq<string>
    decreases |s|
  {
    if |s| == 0 then [cur]
    else if |s| >= 2 && s[0] == ',' && s[1] == ' ' then [cur] + SplitFrom(s[2..], "")
    else SplitFrom(s[1..], cur + [s[0]])
  }

  /** Inverse of `Join` for parts without commas. */
  function Split(s: string): seq<string>
  {
    SplitFrom(s, "")
  }

  lemma {:induction false} SplitSkipsPlainText(p: string, rest: string, cur: string)
    requires ',' !in p
    ensures SplitFrom(p + rest, cur) == SplitFrom(rest, cur + p)
    decreases |p|
  {
    if |p| == 0 {
      assert p + rest == rest;
      assert cur + p == cur;
    } else {
      assert (p + rest)[0] == p[0] && p[0] != ',';
      assert (p + rest)[1..] == p[1..] + rest;
      SplitSkipsPlainText(p[1..], rest, cur + [p[0]]);
      assert cur + [p[0]] + p[1..] == cur + p;
    }
  }

  /** Round trip: splitting a join of comma-free parts gives the parts back. */
  lemma {:induction false} SplitJoin(parts: seq<string>)
    requires |parts| >= 1
    requires forall i :: 0 <= i < |parts| ==> ',' !in parts[i]
    ensures Split(Join(parts)) == parts
    decreases |parts|
  {
    if |parts| == 1 {
      SplitSkipsPlainText(parts[0], "", "");
      assert parts[0] + "" == parts[0];
      assert "" + parts[0] == parts[0];
    } else {
      var rest := Join(parts[1..]);
      assert Join(parts) == parts[0] + (Separator + rest);
      SplitSkipsPlainText(parts[0], Separator + rest, "");
      assert "" + parts[0] == parts[0];
      assert (Separator + rest)[2..] == rest;
      SplitJoin(parts[1..]);
      assert parts == [parts[0]] + parts[1..];
    }
  }

  // Decimal rendering of integers, as Go's strconv.Itoa.

  predicate IsDigit(c: char)
  {
    '0' <= c <= '9'
  }

  predicate AllDigits(s: string)
  {
    forall i :: 0 <= i < |s| ==> IsDigit(s[i])
  }

  function DigitChar(d: nat): (c: char)
    requires d < 10
    ensures IsDigit(c) && c as int - '0' as int == d
  {
    (d + '0' as int) as char
  }

  /** Base-10 digits with no leading zero (only 0 itself starts with '0'). */
  function NatToDecimal(n: nat): (s: string)
    ensures |s| >= 1 && AllDigits(s)
    ensures s[0] == '0' <==> n == 0
  {
    if n < 10 then [DigitChar(n)] else NatToDecimal(n / 10) + [DigitChar(n % 10)]
  }

  function DecimalToNat(s: string): nat
    requires AllDigits(s)
  {
    if |s| == 0 then 0
    else DecimalToNat(s[..|s| - 1]) * 10 + (s[|s| - 1] as int - '0' as int)
  }

  /** Partner of `IntToDecimal`: an optional '-' followed by at least one digit,
      with no leading zero and no "-0". */
  function ParseDecimal(s: string): Option<int>
  {
    if |s| >= 2 && s[0] == '-' && AllDigits(s[1..]) && s[1] != '0' then Some(0 - DecimalToNat(s[1..]) as int)
    else if |s| >= 1 && AllDigits(s) && (s[0] != '0' || |s| == 1) then Some(DecimalToNat(s))
    else None
  }

  lemma {:induction false} NatDecimalRoundTrip(n: nat)
    ensures DecimalToNat(NatToDecimal(n)) == n
  {
    if n >= 10 {
      var s := NatToDecimal(n);
      assert s[..|s| - 1] == NatToDecimal(n / 10);
      NatDecimalRoundTrip(n / 10);
    }
  }

  /** Base-10 rendering with a leading '-' for negative values and no
      leading zero; it parses back to the same integer. */
  function IntToDecimal(n: int): (s: string)
    ensures |s| >= 1
    ensures n >= 0 ==> AllDigits(s)
    ensures n < 0 ==> s[0] == '-' && |s| >= 2 && AllDigits(s[1..])
    ensures n >= 0 && s[0] == '0' ==> s == "0"
    ensures n < 0 ==> s[1] != '0'
    ensures ' ' !in s
    ensures ParseDecimal(s) == Some(n)
  {
    if n < 0 then
      var d := NatToDecimal(-n);
      NatDecimalRoundTrip(-n);
      assert ("-" + d)[1..] == d;
      "-" + d
    else
      NatDecimalRoundTrip(n);
      NatToDecimal(n)
  }
}
