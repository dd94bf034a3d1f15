/** The amounts `extractAmount` yields on sample Yape messages. */
module YapeExamples {
  import opened Wrappers
  import opened YapeParser

  /** A Yape transfer message: the amount follows the sender's text. */
  const TransferMessage: string := "Te envió S/ 25.00"

  /** The engine's try at the marker of the transfer message. */
  lemma TransferMatchAtMarker()
    ensures MatchAt(TransferMessage, 9) == Some(Span(9, 12, 17))
  {
    var text := TransferMessage;
    assert SkipSpaces(text, 11) == 12;
    assert SkipDigits(text, 12) == 14;
    assert GreedyEnd(text, 14) == 17;
  }

  /** The scan from the start passes over the sender's text and stops at the marker. */
  lemma TransferMatchFound()
    ensures FindMatch(TransferMessage, 0) == Some(Span(9, 12, 17))
  {
    TransferMatchAtMarker();
    assert FindMatch(TransferMessage, 9) == Some(Span(9, 12, 17));
    SkipNonMarkers(TransferMessage, 0, 9);
  }

  lemma ExampleTransfer()
    ensures ExtractAmount(TransferMessage) == "25.00"
  {
    TransferMatchFound();
    assert TransferMessage[12..17] == "25.00";
  }

  /** Two decimals are part of the group. */
  lemma ExampleCents()
    ensures ExtractAmount("S/ 12.50") == "12.50"
  {
    var text := "S/ 12.50";
    assert SkipSpaces(text, 2) == 3;
    assert SkipDigits(text, 3) == 5;
    assert GreedyEnd(text, 5) == 8;
  }

  /** One decimal is not `\.\d{2}`, so only the integer part is captured. */
  lemma ExampleOneDecimal()
    ensures ExtractAmount("S/ 12.5") == "12"
  {
    var text := "S/ 12.5";
    assert SkipSpaces(text, 2) == 3;
    assert SkipDigits(text, 3) == 5;
    assert GreedyEnd(text, 5) == 5;
  }

  /** Lower-case marker, no space. */
  lemma ExampleLowerCase()
    ensures ExtractAmount("s/7") == "7"
  {
    var text := "s/7";
    assert SkipSpaces(text, 2) == 2;
    assert SkipDigits(text, 2) == 3;
  }

  /** A thousands separator ends the digit run. */
  lemma ExampleThousands()
    ensures ExtractAmount("S/ 1,250.00") == "1"
  {
    var text := "S/ 1,250.00";
    assert SkipSpaces(text, 2) == 3;
    assert SkipDigits(text, 3) == 4;
    assert GreedyEnd(text, 4) == 4;
  }

  /** A Yape message that carries no amount. */
  const PlainMessage: string := "Yape recibido"

  /** No marker: the default amount. */
  lemma ExampleNoAmount()
    ensures ExtractAmount(PlainMessage) == NoAmount
  {
    assert forall j :: 0 <= j < |PlainMessage| ==> !IsCurrencyS(PlainMessage[j]);
    SkipNonMarkers(PlainMessage, 0, |PlainMessage|);
  }
}
