/**
 * PaymentFactory: the payment-method text, compared ignoring case, picks
 * one of two processors; anything unrecognised falls back to the card one.
 */
module Payments {
  import opened JavaText

  datatype Processor = CreditCardProcessor | UpiProcessor

  /** A charge handed to a processor. */
  datatype Payment = Payment(processor: Processor, amount: real)

  /** PaymentFactory.getProcessor. The text is not trimmed. */
  function GetProcessor(kind: string): Processor
  {
    if EqualsIgnoreCase(kind, "CARD") then CreditCardProcessor
    else if EqualsIgnoreCase(kind, "UPI") then UpiProcessor
    else CreditCardProcessor
  }

  /** Only text that upper-cases to UPI selects the UPI processor; CARD and everything else select the card one. */
  lemma ProcessorSelection(kind: string)
    ensures GetProcessor(kind) == UpiProcessor <==> UpperCase(kind) == "UPI"
    ensures GetProcessor(kind) == CreditCardProcessor <==> UpperCase(kind) != "UPI"
    ensures UpperCase(kind) == "CARD" ==> GetProcessor(kind) == CreditCardProcessor
  {
    EqualsIgnoreCaseIsUpperEquality(kind, "CARD");
    EqualsIgnoreCaseIsUpperEquality(kind, "UPI");
    assert UpperCase("CARD") == "CARD";
    assert UpperCase("UPI") == "UPI";
  }

  lemma ProcessorExamples()
    ensures GetProcessor("upi") == UpiProcessor
    ensures GetProcessor("Card") == CreditCardProcessor
    ensures GetProcessor(" upi") == CreditCardProcessor
    ensures GetProcessor("cash") == CreditCardProcessor
  {
    ProcessorSelection("upi");
    ProcessorSelection(" upi");
  }
}
