/** The invoice block: the payment URI and the copied text, the displayed
    amount (structured fields first, then a pattern match on the invoice
    text), the text placeholder, and the QR mount target that the `ref`
    callback and the script-load callbacks write into. */
module OrderResultInvoice {
  import opened Records

  const LightningScheme := "lightning:"
  const PlaceholderPrefix := "QR Code not available. Invoice: "
  const PlaceholderCut := 20

  function Min(a: int, b: int): int {
    if a <= b then a else b
  }

  // ---------------------------------------------------------------------------
  // Payment URI and copied text
  // ---------------------------------------------------------------------------

  /** The URI encoded in the QR code. */
  function LightningUrl(invoice: string): (u: string)
    ensures |u| == |LightningScheme| + |invoice|
    ensures u[..|LightningScheme|] == LightningScheme
    ensures u[|LightningScheme|..] == invoice
  {
    LightningScheme + invoice
  }

  /** The text the copy action puts on the clipboard: the bare invoice,
      which is the payment URI without its scheme. */
  function ClipboardText(invoice: string): (t: string)
    ensures LightningUrl(invoice) == LightningScheme + t
    ensures |t| < |LightningUrl(invoice)|
  {
    invoice
  }

  // ---------------------------------------------------------------------------
  // The invoice pattern /ln[a-z0-9]+([0-9]+)[a-z0-9]/i
  // ---------------------------------------------------------------------------

  predicate IsDigit(c: char) {
    '0' <= c <= '9'
  }

  /** `[a-z0-9]` under the `i` flag: ASCII letters of either case, and digits. */
  predicate IsAlnum(c: char) {
    IsDigit(c) || 'a' <= c <= 'z' || 'A' <= c <= 'Z'
  }

  /** `ln`, in any letter case, at position `s`. */
  predicate IsLnAt(w: string, s: nat) {
    s + 1 < |w| && (w[s] == 'l' || w[s] == 'L') && (w[s + 1] == 'n' || w[s + 1] == 'N')
  }

  /** The length of the run of alphanumerics starting at `p`. */
  function AlnumRun(w: string, p: nat): (n: nat)
    requires p <= |w|
    ensures p + n <= |w|
    ensures forall i :: p <= i < p + n ==> IsAlnum(w[i])
    ensures p + n == |w| || !IsAlnum(w[p + n])
    decreases |w| - p
  {
    if p == |w| || !IsAlnum(w[p]) then 0 else 1 + AlnumRun(w, p + 1)
  }

  /** The length of the run of digits starting at `q`. */
  function DigitRun(w: string, q: nat): (n: nat)
    requires q <= |w|
    ensures q + n <= |w|
    ensures forall i :: q <= i < q + n ==> IsDigit(w[i])
    ensures q + n == |w| || !IsDigit(w[q + n])
    decreases |w| - q
  {
    if q == |w| || !IsDigit(w[q]) then 0 else 1 + DigitRun(w, q + 1)
  }

  /** A capture group's position and length in the invoice. */
  datatype Span = Span(start: nat, len: nat)

  /** A non-empty span of decimal digits inside `w`. */
  predicate DigitSpan(w: string, sp: Span) {
    sp.len >= 1 && sp.start + sp.len <= |w| &&
    forall i :: sp.start <= i < sp.start + sp.len ==> IsDigit(w[i])
  }

  /** The greedy group `([0-9]+)` at `q` followed by `[a-z0-9]`: digit counts
      are tried from `m` down to 1, and the first that leaves an alphanumeric
      behind it is taken. */
  function GroupTry(w: string, q: nat, m: nat): (r: Option<nat>)
    requires q + m <= |w|
    ensures r.Some? ==> 1 <= r.value <= m
    ensures r.Some? ==> q + r.value < |w| && IsAlnum(w[q + r.value])
    decreases m
  {
    if m == 0 then None
    else if q + m < |w| && IsAlnum(w[q + m]) then Some(m)
    else GroupTry(w, q, m - 1)
  }

  function Group(w: string, q: nat): (r: Option<nat>)
    requires q <= |w|
    ensures r.Some? ==> 1 <= r.value <= DigitRun(w, q)
    ensures r.Some? ==> q + r.value < |w| && IsAlnum(w[q + r.value])
  {
    GroupTry(w, q, DigitRun(w, q))
  }

  /** The greedy `[a-z0-9]+` starting at `p`, with the rest of the pattern
      behind it: lengths are tried from `k` down to 1. */
  function PlusTry(w: string, p: nat, k: nat): (r: Option<Span>)
    requires p + k <= |w|
    ensures r.Some? ==> p < r.value.start <= p + k && r.value.start + r.value.len <= |w|
    ensures r.Some? ==> DigitSpan(w, r.value)
    decreases k
  {
    if k == 0 then None
    else match Group(w, p + k)
      case Some(m) => Some(Span(p + k, m))
      case None => PlusTry(w, p, k - 1)
  }

  /** The pattern anchored at `s`. */
  function MatchAt(w: string, s: nat): (r: Option<Span>)
    requires s <= |w|
    ensures r.Some? ==> s + 2 < r.value.start && r.value.start + r.value.len <= |w|
    ensures r.Some? ==> IsLnAt(w, s) && DigitSpan(w, r.value)
  {
    if IsLnAt(w, s) then PlusTry(w, s + 2, AlnumRun(w, s + 2)) else None
  }

  /** `String.prototype.match` without the `g` flag: the leftmost start. */
  function FirstMatch(w: string, s: nat): (r: Option<Span>)
    requires s <= |w|
    ensures r.Some? ==> s + 2 < r.value.start && r.value.start + r.value.len <= |w|
    ensures r.Some? ==> DigitSpan(w, r.value)
    ensures r.Some? ==> exists t :: s <= t && t + 2 < r.value.start && IsLnAt(w, t)
    decreases |w| - s
  {
    if s == |w| then None
    else if MatchAt(w, s).Some? then MatchAt(w, s)
    else FirstMatch(w, s + 1)
  }

  /** `amountMatch[1]`: the text of the capture group, if the pattern matched. */
  function Capture(w: string): (c: Option<string>)
    ensures c.Some? <==> FirstMatch(w, 0).Some?
    ensures c.Some? ==> |c.value| >= 1 && forall i :: 0 <= i < |c.value| ==> IsDigit(c.value[i])
  {
    match FirstMatch(w, 0)
    case Some(sp) => Some(w[sp.start..sp.start + sp.len])
    case None => None
  }

  /** The value of the leading decimal digits of `s`, accumulated onto `acc`. */
  function LeadingValue(s: string, acc: nat): nat
    decreases |s|
  {
    if s == [] || !IsDigit(s[0]) then acc
    else LeadingValue(s[1..], acc * 10 + (s[0] as int - '0' as int))
  }

  /** `parseInt(s, 10)` on a string that does not start with white space or
      a sign: the value of its leading decimal digits, or NaN (`None`) when it
      does not start with a digit. */
  function ParseInt(s: string): (r: Option<nat>)
    ensures r.Some? <==> s != [] && IsDigit(s[0])
    ensures s != [] && IsDigit(s[0]) && (|s| == 1 || !IsDigit(s[1])) ==>
            r == Some(s[0] as int - '0' as int)
  {
    if s != [] && IsDigit(s[0]) then
      assert LeadingValue(s, 0) == LeadingValue(s[1..], s[0] as int - '0' as int);
      Some(LeadingValue(s, 0))
    else None
  }

  /** The amount the pattern yields, when it matches with a non-empty capture. */
  function RegexAmount(invoice: string): (r: Option<int>)
    ensures r.Some? <==> Capture(invoice).Some?
    ensures r.Some? ==> r.value >= 0
  {
    match Capture(invoice)
    case Some(c) => if c != "" then ParseInt(c) else None
    case None => None
  }

  // The pattern described without backtracking.

  /** A digit at `q` with an alphanumeric right after it. */
  predicate Hit(w: string, q: int) {
    0 <= q && q + 1 < |w| && IsDigit(w[q]) && IsAlnum(w[q + 1])
  }

  /** The largest `q` in `[lo, hi]` with `Hit(w, q)`. */
  function LastHit(w: string, lo: int, hi: int): (r: Option<int>)
    ensures r.Some? ==> lo <= r.value <= hi && Hit(w, r.value)
    ensures r.Some? ==> forall j :: r.value < j <= hi ==> !Hit(w, j)
    ensures r.None? ==> forall j :: lo <= j <= hi ==> !Hit(w, j)
    decreases hi - lo
  {
    if hi < lo then None
    else if Hit(w, hi) then Some(hi)
    else LastHit(w, lo, hi - 1)
  }

  /** What the pattern finds at `s`: after `ln`, the last digit of the
      following alphanumeric run that is not the run's first character and
      has another alphanumeric behind it. The capture is that one digit. */
  function ExpectedAt(w: string, s: nat): Option<Span>
    requires s <= |w|
  {
    if IsLnAt(w, s) then
      match LastHit(w, s + 3, s + 2 + AlnumRun(w, s + 2))
      case Some(q) => Some(Span(q, 1))
      case None => None
    else None
  }

  /** The group succeeds at `q` exactly when `q` is a hit. */
  lemma GroupAtHit(w: string, q: nat)
    requires q <= |w|
    ensures Group(w, q).Some? <==> Hit(w, q)
  {
    var d := DigitRun(w, q);
    if d >= 2 {
      assert IsDigit(w[q + 1]);
      GroupTryLong(w, q, d);
    } else if d == 1 {
      assert GroupTry(w, q, 0).None?;
    }
  }

  lemma {:induction false} GroupTryLong(w: string, q: nat, m: nat)
    requires 2 <= m && q + m <= |w|
    requires IsDigit(w[q + 1])
    ensures GroupTry(w, q, m).Some?
    decreases m
  {
    if !(q + m < |w| && IsAlnum(w[q + m])) && m > 2 {
      GroupTryLong(w, q, m - 1);
    }
  }

  /** At the last hit of a run, the group takes exactly one digit. */
  lemma GroupAtLastHit(w: string, q: nat)
    requires q <= |w| && Hit(w, q) && !Hit(w, q + 1)
    ensures Group(w, q) == Some(1)
  {
    if IsDigit(w[q + 1]) {
      assert q + 2 == |w| || !IsDigit(w[q + 2]);
      assert DigitRun(w, q + 2) == 0;
      assert DigitRun(w, q + 1) == 1;
      assert DigitRun(w, q) == 2;
      assert GroupTry(w, q, 2) == GroupTry(w, q, 1);
    } else {
      assert DigitRun(w, q + 1) == 0;
    }
  }

  /** The backtracking over `[a-z0-9]+` lands on the last hit. */
  lemma {:induction false} PlusTryIsLastHit(w: string, p: nat, k: nat)
    requires p + k <= |w|
    requires !Hit(w, p + k + 1)
    ensures PlusTry(w, p, k) ==
      match LastHit(w, p + 1, p + k)
      case Some(q) => Some(Span(q, 1))
      case None => None
    decreases k
  {
    if k > 0 {
      GroupAtHit(w, p + k);
      if Hit(w, p + k) {
        GroupAtLastHit(w, p + k);
      } else {
        PlusTryIsLastHit(w, p, k - 1);
      }
    }
  }

  /** The backtracking matcher at `s` agrees with the description. */
  lemma MatchAtIsExpected(w: string, s: nat)
    requires s <= |w|
    ensures MatchAt(w, s) == ExpectedAt(w, s)
  {
    if IsLnAt(w, s) {
      var p, r := s + 2, AlnumRun(w, s + 2);
      if r > 0 {
        assert !Hit(w, p + r);
        GroupAtHit(w, p + r);
        PlusTryIsLastHit(w, p, r - 1);
      }
    }
  }

  /** The leftmost start where the description finds something is the match. */
  lemma {:induction false} FirstMatchIsLeftmost(w: string, s: nat, t: nat)
    requires s <= t < |w|
    requires ExpectedAt(w, t).Some?
    requires forall u :: s <= u < t ==> ExpectedAt(w, u).None?
    ensures FirstMatch(w, s) == ExpectedAt(w, t)
    decreases t - s
  {
    MatchAtIsExpected(w, s);
    if s < t {
      FirstMatchIsLeftmost(w, s + 1, t);
    }
  }

  /** And where the description finds nothing, there is no match. */
  lemma {:induction false} FirstMatchNone(w: string, s: nat)
    requires s <= |w|
    requires forall u :: s <= u < |w| ==> ExpectedAt(w, u).None?
    ensures FirstMatch(w, s).None?
    decreases |w| - s
  {
    if s < |w| {
      MatchAtIsExpected(w, s);
      FirstMatchNone(w, s + 1);
    }
  }

  /** Whatever the pattern matches, it captures exactly one decimal digit. */
  lemma {:induction false} FirstMatchIsOneDigit(w: string, s: nat)
    requires s <= |w|
    ensures FirstMatch(w, s).Some? ==>
      FirstMatch(w, s).value.len == 1 && Hit(w, FirstMatch(w, s).value.start)
    decreases |w| - s
  {
    if s < |w| {
      MatchAtIsExpected(w, s);
      if MatchAt(w, s).None? {
        FirstMatchIsOneDigit(w, s + 1);
      }
    }
  }

  /** The pattern's amount is a single digit: 0 to 9, whatever the amount field
      of the invoice's human-readable part holds. */
  lemma RegexAmountIsOneDigit(invoice: string)
    ensures RegexAmount(invoice).Some? ==> 0 <= RegexAmount(invoice).value <= 9
    ensures Capture(invoice).Some? ==>
      |Capture(invoice).value| == 1 && IsDigit(Capture(invoice).value[0])
    ensures Capture(invoice).Some? ==>
      RegexAmount(invoice) == Some(Capture(invoice).value[0] as int - '0' as int)
  {
    FirstMatchIsOneDigit(invoice, 0);
  }

  /** The bare text `lnbc1500n1`, with no data part: the capture is the `0`
      just before `n`, so the amount is 0. There is no satoshi line, but the
      falsy `0` itself is rendered as a bare text node. */
  lemma Bolt11Example()
    ensures Capture("lnbc1500n1") == Some("0")
    ensures RegexAmount("lnbc1500n1") == Some(0)
    ensures !TruthyNumber(RegexAmount("lnbc1500n1"))
    ensures RenderInvoice("lnbc1500n1", None).amountLine.None?
    ensures RenderInvoice("lnbc1500n1", None).bareZero
  {
    var w := "lnbc1500n1";
    assert AlnumRun(w, 10) == 0;
    assert AlnumRun(w, 2) == 8;
    assert !Hit(w, 10) && !Hit(w, 9) && !Hit(w, 8) && Hit(w, 7);
    assert ExpectedAt(w, 0) == Some(Span(7, 1));
    FirstMatchIsLeftmost(w, 0, 0);
    assert w[7..8] == "0";
    assert LeadingValue("0", 0) == LeadingValue("", 0);
  }

  /** In an invoice of the form human-readable part, separator `1`, data
      part, the separator is a digit followed by an alphanumeric. So the
      capture is never inside the human-readable part, where the amount
      field is: it is the separator or a digit of the data part. */
  lemma CaptureLiesPastSeparator(hrp: string, data: string)
    requires |hrp| >= 3 && IsLnAt(hrp, 0)
    requires forall i :: 0 <= i < |hrp| ==> IsAlnum(hrp[i])
    requires data != [] && forall i :: 0 <= i < |data| ==> IsAlnum(data[i])
    ensures FirstMatch(hrp + "1" + data, 0).Some?
    ensures FirstMatch(hrp + "1" + data, 0).value.start >= |hrp|
  {
    var w := hrp + "1" + data;
    var n := AlnumRun(w, 2);
    assert IsLnAt(w, 0) by { assert w[0] == hrp[0] && w[1] == hrp[1]; }
    assert Hit(w, |hrp|) by { assert w[|hrp|] == '1' && w[|hrp| + 1] == data[0]; }
    var e := LastHit(w, 3, 2 + n);
    assert e.Some? && e.value >= |hrp|;
    FirstMatchIsLeftmost(w, 0, 0);
  }

  /** With a data part behind the separator, the capture is not the amount
      field's digit: `lnbc1500n1p` yields the separator `1`, shown as a
      satoshi amount. */
  lemma SeparatorExample()
    ensures Capture("lnbc1500n1p") == Some("1")
    ensures RenderInvoice("lnbc1500n1p", None).amountLine == Some(1)
  {
    var w := "lnbc1500n1p";
    assert AlnumRun(w, 11) == 0;
    assert AlnumRun(w, 2) == 9;
    assert !Hit(w, 11) && !Hit(w, 10) && Hit(w, 9);
    assert ExpectedAt(w, 0) == Some(Span(9, 1));
    FirstMatchIsLeftmost(w, 0, 0);
    assert w[9..10] == "1";
    assert LeadingValue("1", 0) == LeadingValue("", 1);
  }

  /** `lnbc1500n1pj9x` yields the data part's `9`, shown as a satoshi
      amount. */
  lemma DataDigitExample()
    ensures Capture("lnbc1500n1pj9x") == Some("9")
    ensures RenderInvoice("lnbc1500n1pj9x", None).amountLine == Some(9)
  {
    var x := "lnbc1500n1pj9x";
    assert AlnumRun(x, 14) == 0;
    assert AlnumRun(x, 2) == 12;
    assert !Hit(x, 14) && !Hit(x, 13) && Hit(x, 12);
    assert ExpectedAt(x, 0) == Some(Span(12, 1));
    FirstMatchIsLeftmost(x, 0, 0);
    assert x[12..13] == "9";
    assert LeadingValue("9", 0) == LeadingValue("", 9);
  }

  // ---------------------------------------------------------------------------
  // The displayed amount
  // ---------------------------------------------------------------------------

  /** `statusData.paymentInfo.totalSats`, when every step of the path exists. */
  function TotalSats(statusData: Option<StatusData>): (r: Option<int>)
    ensures r.Some? ==> statusData.Some? && statusData.value.paymentInfo.Some? &&
                        r == statusData.value.paymentInfo.value.totalSats
    ensures statusData.Some? && statusData.value.paymentInfo.Some? ==>
            r == statusData.value.paymentInfo.value.totalSats
  {
    if statusData.Some? && statusData.value.paymentInfo.Some?
    then statusData.value.paymentInfo.value.totalSats else None
  }

  /** `statusData.payment.bolt11.order_total_sat`, when every step exists. */
  function OrderTotalSat(statusData: Option<StatusData>): (r: Option<int>)
    ensures r.Some? ==> statusData.Some? && statusData.value.payment.Some? &&
                        statusData.value.payment.value.bolt11.Some? &&
                        r == statusData.value.payment.value.bolt11.value.orderTotalSat
    ensures statusData.Some? && statusData.value.payment.Some? &&
            statusData.value.payment.value.bolt11.Some? ==>
            r == statusData.value.payment.value.bolt11.value.orderTotalSat
  {
    if statusData.Some? && statusData.value.payment.Some? && statusData.value.payment.value.bolt11.Some?
    then statusData.value.payment.value.bolt11.value.orderTotalSat else None
  }

  /** The amount to show: the first truthy of `totalSats` and
      `order_total_sat`, else what the invoice pattern yields, else `null`. */
  function ResolveAmount(invoice: string, statusData: Option<StatusData>): (a: Option<int>)
    ensures TruthyNumber(TotalSats(statusData)) ==> a == TotalSats(statusData)
    ensures !TruthyNumber(TotalSats(statusData)) && TruthyNumber(OrderTotalSat(statusData)) ==>
            a == OrderTotalSat(statusData)
    ensures !TruthyNumber(TotalSats(statusData)) && !TruthyNumber(OrderTotalSat(statusData)) ==>
            a == RegexAmount(invoice)
  {
    var structured :=
      if TruthyNumber(TotalSats(statusData)) then TotalSats(statusData)
      else if TruthyNumber(OrderTotalSat(statusData)) then OrderTotalSat(statusData)
      else None;
    if TruthyNumber(structured) then structured else RegexAmount(invoice)
  }

  /** The pattern never overrides a truthy structured amount: the invoice
      text then plays no part. */
  lemma StructuredAmountWins(invoice: string, other: string, statusData: Option<StatusData>)
    requires TruthyNumber(TotalSats(statusData)) || TruthyNumber(OrderTotalSat(statusData))
    ensures ResolveAmount(invoice, statusData) == ResolveAmount(other, statusData)
    ensures TruthyNumber(ResolveAmount(invoice, statusData))
  {
  }

  /** Without a truthy structured amount, the amount is either absent or one
      decimal digit. */
  lemma FallbackAmountBound(invoice: string, statusData: Option<StatusData>)
    requires !TruthyNumber(TotalSats(statusData)) && !TruthyNumber(OrderTotalSat(statusData))
    ensures ResolveAmount(invoice, statusData).Some? ==> 0 <= ResolveAmount(invoice, statusData).value <= 9
    ensures ResolveAmount(invoice, statusData).None? <==> Capture(invoice).None?
  {
    RegexAmountIsOneDigit(invoice);
  }

  // ---------------------------------------------------------------------------
  // The rendered invoice block
  // ---------------------------------------------------------------------------

  /** `bareZero` is the child `totalSats && …` leaves when the amount is the
      number 0: React renders it as the text `0`. */
  datatype InvoiceView = InvoiceView(paymentUri: string, copyText: string, amountLine: Option<int>,
                                     bareZero: bool)

  /** The invoice block: the URI in the QR code, the text both click targets
      copy, and the satoshi line, present only for a truthy amount; a zero
      amount leaves a bare `0` in its place. */
  function RenderInvoice(invoice: string, statusData: Option<StatusData>): (v: InvoiceView)
    ensures v.paymentUri == LightningScheme + v.copyText && v.copyText == invoice
    ensures v.amountLine.Some? <==> TruthyNumber(ResolveAmount(invoice, statusData))
    ensures v.amountLine.Some? ==> v.amountLine == ResolveAmount(invoice, statusData) && v.amountLine.value != 0
    ensures v.bareZero <==> ResolveAmount(invoice, statusData) == Some(0)
    ensures v.bareZero ==> v.amountLine.None?
  {
    var amount := ResolveAmount(invoice, statusData);
    InvoiceView(LightningUrl(invoice), ClipboardText(invoice), if TruthyNumber(amount) then amount else None,
                amount == Some(0))
  }

  // ---------------------------------------------------------------------------
  // The QR mount target
  // ---------------------------------------------------------------------------

  /** `text.substring(0, n)`. */
  function Prefix(text: string, n: nat): (r: string)
    ensures |r| == Min(n, |text|)
    ensures r == text[..|r|]
  {
    if |text| <= n then text else text[..n]
  }

  /** The text of the placeholder that stands in for the QR code. */
  function TextQr(text: string): (r: string)
    ensures |r| == |PlaceholderPrefix| + Min(PlaceholderCut, |text|) + 3
    ensures r[..|PlaceholderPrefix|] == PlaceholderPrefix
    ensures r[|PlaceholderPrefix|..|r| - 3] == text[..Min(PlaceholderCut, |text|)]
    ensures r[|r| - 3..] == "..."
  {
    PlaceholderPrefix + Prefix(text, PlaceholderCut) + "..."
  }

  /** For the payment URI, the placeholder keeps the scheme and the first ten
      characters of the invoice. */
  lemma PlaceholderForInvoice(invoice: string)
    ensures TextQr(LightningUrl(invoice)) ==
            PlaceholderPrefix + LightningScheme + invoice[..Min(10, |invoice|)] + "..."
  {
  }

  datatype Child = QrEl | TextPlaceholder(text: string)

  /** What the QR path appends: the element the library draws into, then a
      placeholder when the library's constructor throws (the element is
      already in place by then). */
  function QrChildren(url: string, constructorThrows: bool): (cs: seq<Child>)
    ensures |cs| == if constructorThrows then 2 else 1
    ensures cs[0] == QrEl
    ensures constructorThrows ==> cs[1] == TextPlaceholder(TextQr(url))
  {
    if constructorThrows then [QrEl, TextPlaceholder(TextQr(url))] else [QrEl]
  }

  /** What a script's `onload` appends: the QR path when the library is now
      defined, a placeholder otherwise. */
  function LoadedChildren(url: string, libraryDefined: bool, constructorThrows: bool): (cs: seq<Child>)
    ensures cs != []
    ensures !libraryDefined || constructorThrows <==> cs[|cs| - 1] == TextPlaceholder(TextQr(url))
  {
    if libraryDefined then QrChildren(url, constructorThrows) else [TextPlaceholder(TextQr(url))]
  }

  /** The DOM element the QR code is mounted into. */
  class QrTarget {
    var children: seq<Child>
    /** The scripts injected for this target whose load has not settled, each
        with the payment URI its callbacks captured. */
    var pendingScripts: seq<string>

    constructor ()
      ensures children == [] && pendingScripts == []
    {
      children := [];
      pendingScripts := [];
    }

    /** A pending script's `onload`. It appends without checking whether the
        target already has children. */
    method ScriptLoaded(i: nat, libraryDefined: bool, constructorThrows: bool)
      requires i < |pendingScripts|
      modifies this
      ensures pendingScripts == old(pendingScripts[..i] + pendingScripts[i + 1..])
      ensures children == old(children) + LoadedChildren(old(pendingScripts[i]), libraryDefined, constructorThrows)
    {
      var url := pendingScripts[i];
      pendingScripts := pendingScripts[..i] + pendingScripts[i + 1..];
      if libraryDefined {
        children := children + [QrEl];
        if constructorThrows {
          children := children + [TextPlaceholder(TextQr(url))];
        }
      } else {
        children := children + [TextPlaceholder(TextQr(url))];
      }
    }

    /** A pending script's `onerror`: a placeholder. */
    method ScriptFailed(i: nat)
      requires i < |pendingScripts|
      modifies this
      ensures pendingScripts == old(pendingScripts[..i] + pendingScripts[i + 1..])
      ensures children == old(children) + [TextPlaceholder(TextQr(old(pendingScripts[i])))]
    {
      var url := pendingScripts[i];
      pendingScripts := pendingScripts[..i] + pendingScripts[i + 1..];
      children := children + [TextPlaceholder(TextQr(url))];
    }
  }

  /** The `ref` callback. Only an empty target is written to: without the
      library a script is injected (and the target stays empty until it
      settles); with it, the QR path runs at once. */
  method RefCallback(el: QrTarget?, url: string, libraryDefined: bool, constructorThrows: bool)
    modifies el
    ensures el != null && old(el.children) != [] ==>
      el.children == old(el.children) && el.pendingScripts == old(el.pendingScripts)
    ensures el != null && old(el.children) == [] && !libraryDefined ==>
      el.children == [] && el.pendingScripts == old(el.pendingScripts) + [url]
    ensures el != null && old(el.children) == [] && libraryDefined ==>
      el.children == QrChildren(url, constructorThrows) && el.pendingScripts == old(el.pendingScripts)
  {
    if el != null && el.children == [] {
      if !libraryDefined {
        el.pendingScripts := el.pendingScripts + [url];
      } else {
        el.children := el.children + [QrEl];
        if constructorThrows {
          el.children := el.children + [TextPlaceholder(TextQr(url))];
        }
      }
    }
  }

  /** With the library present, a second `ref` call finds the target filled
      and leaves it as the first call made it. */
  method RefTwiceWithLibrary(url: string, constructorThrows: bool) returns (t: QrTarget)
    ensures t.children == QrChildren(url, constructorThrows) && t.pendingScripts == []
  {
    t := new QrTarget();
    RefCallback(t, url, true, constructorThrows);
    RefCallback(t, url, true, constructorThrows);
  }

  /** Without the library, a second `ref` call before the script settles
      injects a second script, and both loads append: the QR element ends up
      twice. */
  method RefTwiceBeforeLoad(url: string) returns (t: QrTarget)
    ensures t.children == [QrEl, QrEl] && t.pendingScripts == []
  {
    t := new QrTarget();
    RefCallback(t, url, false, false);
    RefCallback(t, url, false, false);
    assert t.pendingScripts == [url, url];
    t.ScriptLoaded(0, true, false);
    t.ScriptLoaded(0, true, false);
  }
}
