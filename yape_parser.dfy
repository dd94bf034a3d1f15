/**
  The pure half of NotificationService: the filter that recognises a Yape
  payload and the parser that turns it into a transaction record.

  The amount is what `text.match(/S\/\s*(\d+(\.\d{2})?)/i)` captures in its
  first group. The pattern is given declaratively (IsMatch, IsReported) and
  the scanner ExtractAmount is proved to return the group of the match that
  JavaScript reports, or "0" when there is none.
*/
module YapeParser {
  import opened Wrappers

  /** What the native listener delivers. */
  datatype Payload = Payload(packageName: string, title: string, text: string)

  /** A parsed Yape transfer, as NotificationService stores it. */
  datatype Notification = Notification(amount: string, date: string, sender: string, message: string)

  const YapePackage: string := "com.yape.android"
  const NoAmount: string := "0"

  predicate IsYapeNotification(p: Payload) {
    p.packageName == YapePackage
  }

  /**
    The filter compares the whole package name, case-sensitively, and looks
    at nothing else: no extension or other casing of the package passes.
  */
  lemma YapeFilterIsExact(p: Payload, suffix: string, title: string, text: string)
    ensures IsYapeNotification(p) <==> p.packageName == YapePackage
    ensures IsYapeNotification(p) == IsYapeNotification(Payload(p.packageName, title, text))
    ensures IsYapeNotification(Payload(YapePackage + suffix, title, text)) <==> suffix == []
    ensures !IsYapeNotification(Payload("com.Yape.android", title, text))
    ensures !IsYapeNotification(Payload("com.yape", title, text))
  {
    if IsYapeNotification(Payload(YapePackage + suffix, title, text)) {
      assert |YapePackage + suffix| == |YapePackage|;
    }
    assert "com.Yape.android"[4] != YapePackage[4];
  }

  // ---------------------------------------------------------------------
  // Character classes of the pattern

  /** `S` under the `i` flag without `u`: only `S` and `s` canonicalise to `S`. */
  predicate IsCurrencyS(c: char) {
    c == 'S' || c == 's'
  }

  /** `\d`: the ASCII digits only. */
  predicate IsDigit(c: char) {
    '0' <= c <= '9'
  }

  /** `\s`: JavaScript's white space and line terminators. */
  predicate IsSpace(c: char) {
    c == '\t' || c == '\n' || c == '\U{000B}' || c == '\U{000C}' || c == '\r' || c == ' '
    || c == '\U{00A0}' || c == '\U{1680}' || ('\U{2000}' <= c <= '\U{200A}')
    || c == '\U{2028}' || c == '\U{2029}' || c == '\U{202F}' || c == '\U{205F}'
    || c == '\U{3000}' || c == '\U{FEFF}'
  }

  /** Every character of text[a..b] is a digit. */
  predicate DigitsBetween(text: string, a: nat, b: nat)
    requires a <= b <= |text|
  {
    forall t :: a <= t < b ==> IsDigit(text[t])
  }

  /** Every character of text[a..b] is white space. */
  predicate SpacesBetween(text: string, a: nat, b: nat)
    requires a <= b <= |text|
  {
    forall t :: a <= t < b ==> IsSpace(text[t])
  }

  // ---------------------------------------------------------------------
  // The pattern, declaratively

  /** text[g..e] is the captured group `\d+(\.\d{2})?`. */
  predicate TokenBetween(text: string, g: nat, e: nat)
    requires g <= e <= |text|
  {
    || (g < e && DigitsBetween(text, g, e))
    || (g + 4 <= e && DigitsBetween(text, g, e - 3) && text[e - 3] == '.'
        && IsDigit(text[e - 2]) && IsDigit(text[e - 1]))
  }

  /** A whole string of the shape `\d+(\.\d{2})?`. */
  predicate IsAmountToken(s: string) {
    TokenBetween(s, 0, |s|)
  }

  /** A match occupies text[start..end]; its group is text[group..end]. */
  datatype Span = Span(start: nat, group: nat, end: nat)

  /** text[m.start..m.end] matches `S\/\s*(\d+(\.\d{2})?)` with the `i` flag. */
  predicate IsMatch(text: string, m: Span) {
    && m.start + 2 <= m.group <= m.end <= |text|
    && IsCurrencyS(text[m.start])
    && text[m.start + 1] == '/'
    && SpacesBetween(text, m.start + 2, m.group)
    && TokenBetween(text, m.group, m.end)
  }

  /**
    The match `String.prototype.match` reports for a non-global pattern:
    the leftmost one and, at that position, the one the greedy quantifiers
    pick, which for this pattern is the longest.
  */
  ghost predicate IsReported(text: string, m: Span) {
    && IsMatch(text, m)
    && forall other :: IsMatch(text, other) ==>
         m.start < other.start || (m.start == other.start && other.end <= m.end)
  }

  /** Two matches at one position share their group start: spaces and digits are disjoint. */
  lemma GroupIsDetermined(text: string, m1: Span, m2: Span)
    requires IsMatch(text, m1) && IsMatch(text, m2) && m1.start == m2.start
    ensures m1.group == m2.group
  {
    assert IsDigit(text[m1.group]) && IsDigit(text[m2.group]);
  }

  /** At most one match is reported, so the amount the pattern defines is unique. */
  lemma ReportedIsUnique(text: string, m1: Span, m2: Span)
    requires IsReported(text, m1) && IsReported(text, m2)
    ensures m1 == m2
  {
    assert m1.start == m2.start && m1.end == m2.end;
    GroupIsDetermined(text, m1, m2);
  }

  // ---------------------------------------------------------------------
  // The scanner

  /** The end of the run of `\s` that begins at j. */
  function SkipSpaces(text: string, j: nat): (k: nat)
    requires j <= |text|
    ensures j <= k <= |text|
    ensures SpacesBetween(text, j, k)
    ensures k == |text| || !IsSpace(text[k])
    decreases |text| - j
  {
    if j < |text| && IsSpace(text[j]) then SkipSpaces(text, j + 1) else j
  }

  /** The end of the run of `\d` that begins at j. */
  function SkipDigits(text: string, j: nat): (k: nat)
    requires j <= |text|
    ensures j <= k <= |text|
    ensures DigitsBetween(text, j, k)
    ensures k == |text| || !IsDigit(text[k])
    decreases |text| - j
  {
    if j < |text| && IsDigit(text[j]) then SkipDigits(text, j + 1) else j
  }

  /** Where the greedy `\d+(\.\d{2})?` ends when the digit run at g ends at d. */
  function GreedyEnd(text: string, d: nat): (e: nat)
    requires d <= |text|
    ensures d <= e <= |text|
  {
    if d + 3 <= |text| && text[d] == '.' && IsDigit(text[d + 1]) && IsDigit(text[d + 2]) then d + 3 else d
  }

  /** A token that starts at g is a digit run at g, and ends no later than the greedy one. */
  lemma TokenWithinRun(text: string, g: nat, e: nat)
    requires g <= e <= |text|
    requires TokenBetween(text, g, e)
    ensures g < |text| && IsDigit(text[g])
    ensures e <= GreedyEnd(text, SkipDigits(text, g))
  {
  }

  /** The greedy token at a digit is a token. */
  lemma GreedyIsToken(text: string, g: nat)
    requires g < |text| && IsDigit(text[g])
    ensures var e := GreedyEnd(text, SkipDigits(text, g)); g < e && TokenBetween(text, g, e)
  {
  }

  /** Where the pattern can match at i: `S/`, the space run, then a digit. */
  lemma MatchGroupAt(text: string, i: nat, m: Span)
    requires i + 2 <= |text|
    requires m.start == i && IsMatch(text, m)
    ensures var g := SkipSpaces(text, i + 2); g == m.group && g < |text| && IsDigit(text[g])
  {
    TokenWithinRun(text, m.group, m.end);
  }

  /** The match the engine finds when it tries position i, if any. */
  function MatchAt(text: string, i: nat): (r: Option<Span>)
    requires i <= |text|
    ensures r.Some? ==> r.value.start == i && IsMatch(text, r.value)
    ensures r.Some? ==> forall m :: IsMatch(text, m) && m.start == i ==> m.end <= r.value.end
    ensures r.None? ==> forall m: Span :: m.start == i ==> !IsMatch(text, m)
  {
    if i + 2 <= |text| && IsCurrencyS(text[i]) && text[i + 1] == '/' then
      var g := SkipSpaces(text, i + 2);
      if g < |text| && IsDigit(text[g]) then
        var found := Span(i, g, GreedyEnd(text, SkipDigits(text, g)));
        GreedyIsToken(text, g);
        assert forall m :: IsMatch(text, m) && m.start == i ==> m.end <= found.end by {
          forall m | IsMatch(text, m) && m.start == i
            ensures m.end <= found.end
          {
            MatchGroupAt(text, i, m);
            TokenWithinRun(text, m.group, m.end);
          }
        }
        Some(found)
      else
        assert forall m: Span :: m.start == i ==> !IsMatch(text, m) by {
          forall m: Span | m.start == i
            ensures !IsMatch(text, m)
          {
            if IsMatch(text, m) {
              MatchGroupAt(text, i, m);
            }
          }
        }
        None
    else
      None
  }

  /** Tries each position from `from` on, leftmost first, as the regex engine does. */
  function FindMatch(text: string, from: nat): (r: Option<Span>)
    requires from <= |text|
    ensures r.Some? ==> IsMatch(text, r.value) && from <= r.value.start
    ensures r.Some? ==> forall m :: IsMatch(text, m) && from <= m.start ==>
              r.value.start < m.start || (r.value.start == m.start && m.end <= r.value.end)
    ensures r.None? ==> forall m :: IsMatch(text, m) ==> m.start < from
    decreases |text| - from
  {
    if from == |text| then
      None
    else
      match MatchAt(text, from)
      case Some(m) => Some(m)
      case None => FindMatch(text, from + 1)
  }

  /** The group cut out of the text keeps its shape. */
  lemma TokenSlice(text: string, g: nat, e: nat)
    requires g <= e <= |text| && TokenBetween(text, g, e)
    ensures IsAmountToken(text[g..e])
  {
  }

  /** `extractAmount`: the reported group, or "0" when the text holds no match. */
  function ExtractAmount(text: string): (amount: string)
    ensures (forall m :: !IsMatch(text, m)) ==> amount == NoAmount
    ensures forall m :: IsReported(text, m) ==> amount == text[m.group..m.end]
    ensures (exists m :: IsMatch(text, m)) ==> exists m :: IsReported(text, m)
    ensures IsAmountToken(amount)
  {
    match FindMatch(text, 0)
    case None => NoAmount
    case Some(m) =>
      assert IsReported(text, m);
      assert forall other :: IsReported(text, other) ==> other == m by {
        forall other | IsReported(text, other) ensures other == m {
          ReportedIsUnique(text, other, m);
        }
      }
      TokenSlice(text, m.group, m.end);
      text[m.group..m.end]
  }

  /** `parseYapeNotification`; `now` stands for `new Date().toISOString()` at parse time. */
  function ParseYapeNotification(p: Payload, now: string): (n: Notification)
    ensures n.sender == p.title && n.message == p.text && n.date == now
    ensures n.amount == ExtractAmount(p.text)
  {
    Notification(ExtractAmount(p.text), now, p.title, p.text)
  }

  /** The amount is "0" or a substring of the message it was taken from. */
  lemma AmountComesFromMessage(p: Payload, now: string)
    ensures var n := ParseYapeNotification(p, now);
      n.amount == NoAmount || exists i, j :: 0 <= i <= j <= |p.text| && n.amount == p.text[i..j]
  {
  }

  /** The engine moves past positions that do not hold the marker. */
  lemma {:induction false} SkipNonMarkers(text: string, from: nat, k: nat)
    requires from <= k <= |text|
    requires forall j :: from <= j < k ==> !IsCurrencyS(text[j])
    ensures FindMatch(text, from) == FindMatch(text, k)
    decreases k - from
  {
    if from < k {
      SkipNonMarkers(text, from + 1, k);
    }
  }
}
