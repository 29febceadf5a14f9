/** `pushRowsToQueue`: one `createOrder` job per CSV row, with the order
    value converted by JavaScript's `Number(...)`. */
module CsvService {
  import opened Wrappers
  import opened OrderQueue
  import opened AdmitadSync

  /** One parsed CSV row; every cell is text. */
  datatype CsvRow = CsvRow(
    shortCode: string,
    creatorId: string,
    orderId: string,
    productName: string,
    orderValue: string,
    category: string)

  predicate IsDigit(c: char) {
    '0' <= c <= '9'
  }

  predicate AllDigits(s: string) {
    forall i :: 0 <= i < |s| ==> IsDigit(s[i])
  }

  /** The white space and line terminators `Number` ignores around its
      argument, as far as they are ASCII: tab, line feed, vertical tab,
      form feed, carriage return and space. */
  predicate IsSpace(c: char) {
    c == ' ' || '\t' <= c <= '\r'
  }

  function TrimStart(s: string): (r: string)
    ensures |r| <= |s|
    ensures |r| > 0 ==> !IsSpace(r[0])
  {
    if |s| > 0 && IsSpace(s[0]) then TrimStart(s[1..]) else s
  }

  function TrimEnd(s: string): (r: string)
    ensures |r| <= |s|
    ensures |r| > 0 ==> !IsSpace(r[|r| - 1])
  {
    if |s| > 0 && IsSpace(s[|s| - 1]) then TrimEnd(s[..|s| - 1]) else s
  }

  function Trim(s: string): string {
    TrimEnd(TrimStart(s))
  }

  /** The value of a run of decimal digits, most significant first. */
  function DigitsValue(s: string): nat
    requires AllDigits(s)
  {
    if |s| == 0 then 0 else DigitsValue(s[..|s| - 1]) * 10 + ((s[|s| - 1] as int) - ('0' as int))
  }

  function Pow10(n: nat): (p: nat)
    ensures p >= 1
  {
    if n == 0 then 1 else 10 * Pow10(n - 1)
  }

  /** The position of the first '.', if any. */
  function FindDot(s: string): (r: Option<nat>)
    ensures r.Some? ==> r.value < |s| && s[r.value] == '.' && forall i :: 0 <= i < r.value ==> s[i] != '.'
    ensures r.None? ==> forall i :: 0 <= i < |s| ==> s[i] != '.'
  {
    if |s| == 0 then None
    else if s[0] == '.' then Some(0)
    else match FindDot(s[1..])
      case None => None
      case Some(k) => Some(k + 1)
  }

  /** An unsigned decimal: digits, optionally a '.' and more digits, with
      at least one digit in all. */
  function ParseUnsigned(s: string): (r: Option<real>)
    ensures r.Some? ==> r.value >= 0.0
  {
    match FindDot(s)
    case None =>
      if |s| > 0 && AllDigits(s) then Some(DigitsValue(s) as real) else None
    case Some(d) =>
      var whole := s[..d];
      var frac := s[d + 1..];
      if AllDigits(whole) && AllDigits(frac) && |whole| + |frac| > 0 then
        Some(DigitsValue(whole) as real + (DigitsValue(frac) as real) / (Pow10(|frac|) as real))
      else None
  }

  /** `Number(text)` on the decimal forms: blank text is 0, an optional
      sign, then an unsigned decimal; anything else is NaN (`None`). */
  function JsNumber(text: string): (r: Option<real>)
    ensures Trim(text) == "" ==> r == Some(0.0)
  {
    var t := Trim(text);
    if t == "" then Some(0.0)
    else if t[0] == '-' then
      match ParseUnsigned(t[1..])
      case Some(v) => Some(-v)
      case None => None
    else if t[0] == '+' then ParseUnsigned(t[1..])
    else ParseUnsigned(t)
  }

  /** The decimal text of a natural number. */
  function NatToDecimal(n: nat): (s: string)
    ensures |s| > 0 && AllDigits(s)
  {
    var d := ['0' + ((n % 10) as char)];
    if n < 10 then d else NatToDecimal(n / 10) + d
  }

  lemma {:induction false} DecimalValue(n: nat)
    ensures DigitsValue(NatToDecimal(n)) == n
  {
    var s := NatToDecimal(n);
    assert s[..|s| - 1] == if n < 10 then [] else NatToDecimal(n / 10);
    if n >= 10 {
      DecimalValue(n / 10);
    }
  }

  /** Text that neither starts nor ends with white space is its own trim. */
  lemma TrimNoSpace(t: string)
    requires |t| > 0 && !IsSpace(t[0]) && !IsSpace(t[|t| - 1])
    ensures Trim(t) == t
  {
    assert TrimStart(t) == t;
  }

  /** A run of digits parses to its value. */
  lemma ParseDigits(s: string)
    requires |s| > 0 && AllDigits(s)
    ensures ParseUnsigned(s) == Some(DigitsValue(s) as real)
  {
    assert FindDot(s).None? by {
      if FindDot(s).Some? {
        assert IsDigit(s[FindDot(s).value]);
      }
    }
  }

  /** `Number` reads a run of digits as the number it denotes. */
  lemma NumberOfDigits(s: string)
    requires |s| > 0 && AllDigits(s)
    ensures JsNumber(s) == Some(DigitsValue(s) as real)
  {
    assert IsDigit(s[0]) && IsDigit(s[|s| - 1]);
    TrimNoSpace(s);
    ParseDigits(s);
  }

  /** ... and the same run after a minus sign as its negation. */
  lemma NumberOfNegatedDigits(s: string)
    requires |s| > 0 && AllDigits(s)
    ensures JsNumber("-" + s) == Some(-(DigitsValue(s) as real))
  {
    var m := "-" + s;
    assert m[0] == '-' && m[1..] == s;
    NegatedTrim(s);
    ParseDigits(s);
    SignedText(m, s);
  }

  /** Trimmed text that is a minus sign followed by `u` reads as the
      negation of `u`. */
  lemma SignedText(t: string, u: string)
    requires |t| > 0 && Trim(t) == t && t[0] == '-' && t[1..] == u && ParseUnsigned(u).Some?
    ensures JsNumber(t) == Some(-ParseUnsigned(u).value)
  {
    NegativeNumber(t);
  }

  /** `Number` of trimmed text after a minus sign is the negated
      unsigned value. */
  lemma NegativeNumber(t: string)
    requires |t| > 0 && Trim(t) == t && t[0] == '-'
    ensures ParseUnsigned(t[1..]).Some? ==> JsNumber(t) == Some(-ParseUnsigned(t[1..]).value)
    ensures ParseUnsigned(t[1..]).None? ==> JsNumber(t).None?
  {
  }

  lemma NegatedTrim(s: string)
    requires |s| > 0 && AllDigits(s)
    ensures Trim("-" + s) == "-" + s
  {
    var m := "-" + s;
    assert IsDigit(s[|s| - 1]);
    assert m[|m| - 1] == s[|s| - 1];
    TrimNoSpace(m);
  }

  /** `Number` reads back the decimal text of any natural number, and of
      its negation. */
  lemma NumberOfDecimal(n: nat)
    ensures JsNumber(NatToDecimal(n)) == Some(n as real)
    ensures JsNumber("-" + NatToDecimal(n)) == Some(-(n as real))
  {
    var s := NatToDecimal(n);
    DecimalValue(n);
    NumberOfDigits(s);
    NumberOfNegatedDigits(s);
    assert DigitsValue(s) as real == n as real;
  }

  predicate AllSpace(s: string) {
    forall i :: 0 <= i < |s| ==> IsSpace(s[i])
  }

  lemma {:induction false} TrimStartAllSpace(s: string)
    requires AllSpace(s)
    ensures TrimStart(s) == ""
  {
    if |s| > 0 {
      assert AllSpace(s[1..]) by {
        forall i | 0 <= i < |s[1..]|
          ensures IsSpace(s[1..][i])
        {
          assert s[1..][i] == s[i + 1];
        }
      }
      TrimStartAllSpace(s[1..]);
    }
  }

  /** A blank cell, empty or white space only, becomes 0, not NaN. */
  lemma BlankIsZero(s: string)
    requires AllSpace(s)
    ensures JsNumber(s) == Some(0.0)
  {
    TrimStartAllSpace(s);
  }

  /** A character that cannot occur in an unsigned decimal makes it
      unreadable. */
  lemma ParseRejects(u: string, k: nat)
    requires k < |u| && !IsDigit(u[k]) && u[k] != '.'
    ensures ParseUnsigned(u).None?
  {
    match FindDot(u)
    case None =>
    case Some(d) =>
      if k < d {
        assert u[..d][k] == u[k];
      } else {
        assert u[d + 1..][k - d - 1] == u[k];
      }
  }

  /** The trimmed text holds a character that no decimal form allows
      there: not a digit, not '.', and not a sign in front. */
  predicate HasStrayChar(t: string) {
    exists i :: 0 <= i < |t| && !IsDigit(t[i]) && t[i] != '.' && !(i == 0 && (t[i] == '-' || t[i] == '+'))
  }

  /** A cell that is not a decimal number becomes NaN. */
  lemma WordIsNaN(s: string)
    requires HasStrayChar(Trim(s))
    ensures JsNumber(s) == None
  {
    var t := Trim(s);
    var i :| 0 <= i < |t| && !IsDigit(t[i]) && t[i] != '.' && !(i == 0 && (t[i] == '-' || t[i] == '+'));
    if t[0] == '-' || t[0] == '+' {
      assert t[1..][i - 1] == t[i];
      ParseRejects(t[1..], i - 1);
    } else {
      ParseRejects(t, i);
    }
  }

  /** A form feed alone is a blank cell. */
  lemma FormFeedIsZero()
    ensures JsNumber("\U{000C}") == Some(0.0)
  {
    BlankIsZero("\U{000C}");
  }

  lemma VerticalTabTrim()
    ensures Trim("\U{000B}12") == "12"
  {
    var t := "\U{000B}12";
    assert t[1..] == "12";
    TrimNoSpace("12");
  }

  /** Leading vertical tab is ignored. */
  lemma VerticalTabIgnored()
    ensures JsNumber("\U{000B}12") == Some(12.0)
  {
    VerticalTabTrim();
    assert DigitsValue("12") == 12 by {
      assert "12"[..1] == "1";
      assert "1"[..0] == "";
    }
    ParseDigits("12");
  }

  lemma PaddedWordTrim()
    ensures Trim(" abc ") == "abc"
  {
    var w := " abc ";
    assert TrimStart(w) == "abc " by {
      assert w[1..] == "abc ";
    }
    assert TrimEnd("abc ") == "abc" by {
      assert "abc "[..3] == "abc";
    }
  }

  /** Letters between spaces are NaN. */
  lemma PaddedWordIsNaN()
    ensures JsNumber(" abc ") == None
  {
    PaddedWordTrim();
    assert "abc"[0] == 'a';
    WordIsNaN(" abc ");
  }

  lemma DotTrim()
    ensures Trim(".") == "."
  {
    TrimNoSpace(".");
  }

  lemma DotParse()
    ensures ParseUnsigned(".") == None
  {
    assert FindDot(".") == Some(0);
    assert "."[..0] == "" && "."[1..] == "";
  }

  /** A lone '.' has no digit and becomes NaN. */
  lemma DotIsNaN()
    ensures JsNumber(".") == None
  {
    DotTrim();
    DotParse();
    assert "."[0] == '.';
  }

  lemma FractionParse()
    ensures ParseUnsigned("12.5") == Some(12.5)
  {
    var t := "12.5";
    assert FindDot(t) == Some(2) by {
      assert t[0] != '.' && t[1] != '.' && t[2] == '.';
    }
    assert t[..2] == "12" && t[3..] == "5";
    assert DigitsValue("12") == 12 by {
      assert "12"[..1] == "1";
      assert "1"[..0] == "";
    }
    assert DigitsValue("5") == 5 by {
      assert "5"[..0] == "";
    }
  }

  /** A decimal fraction is read digit for digit. */
  lemma FractionExample()
    ensures JsNumber("12.5") == Some(12.5)
  {
    TrimNoSpace("12.5");
    FractionParse();
    assert "12.5"[0] == '1';
  }

  /** The job queued for a row. */
  function CsvJob(platform: string, row: CsvRow): (j: OrderJob)
    ensures j.platform == platform && j.orderId == row.orderId && j.orderValue == JsNumber(row.orderValue)
    ensures j.shortCode == row.shortCode && j.creatorId == row.creatorId
    ensures j.productName == row.productName && j.category == row.category
    ensures j.status == "" && j.subId == "" && j.rawAmount.None?
  {
    OrderJob(orderId := row.orderId, platform := platform, category := row.category,
             orderValue := JsNumber(row.orderValue), rawAmount := None, creatorId := row.creatorId,
             shortCode := row.shortCode, subId := "", status := "", productName := row.productName)
  }

  function CsvJobs(platform: string, rows: seq<CsvRow>): (jobs: seq<OrderJob>)
    ensures |jobs| == |rows|
    ensures forall i :: 0 <= i < |rows| ==> jobs[i] == CsvJob(platform, rows[i])
  {
    seq(|rows|, i requires 0 <= i < |rows| => CsvJob(platform, rows[i]))
  }

  /** `pushRowsToQueue(rows, platform)`: no duplicate check, one job per
      row in row order.  There is no `try`, so the first failing add
      (`addFailsAt`) ends the loop and the call fails (`ok` false). */
  method PushRowsToQueue(queue: Queue, rows: seq<CsvRow>, platform: string, addFailsAt: Option<nat>)
    returns (ok: bool)
    modifies queue
    ensures queue.jobs == old(queue.jobs) + CsvJobs(platform, QueuedPrefix(rows, addFailsAt))
    ensures ok <==> AllQueued(rows, addFailsAt)
  {
    var i := 0;
    while i < |rows|
      invariant 0 <= i <= |rows|
      invariant addFailsAt.Some? ==> i <= addFailsAt.value
      invariant queue.jobs == old(queue.jobs) + CsvJobs(platform, rows[..i])
    {
      if addFailsAt == Some(i) {
        assert QueuedPrefix(rows, addFailsAt) == rows[..i];
        return false;
      }
      assert CsvJobs(platform, rows[..i + 1]) == CsvJobs(platform, rows[..i]) + [CsvJob(platform, rows[i])];
      queue.Add(CsvJob(platform, rows[i]));
      i := i + 1;
    }
    assert rows[..i] == rows;
    return true;
  }
}
