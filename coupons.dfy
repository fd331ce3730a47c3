/**
 * Coupon resolution at checkout: the trimmed coupon text, compared ignoring
 * case, chooses at most one decorator around the tax-inclusive base amount.
 */
module Coupons {
  import opened JavaText
  import opened Promotions

  /** What a coupon text resolves to. */
  datatype Coupon = NoCoupon | Save10 | Flat50 | Unrecognised

  /** The warning checkout reports for an unrecognised coupon. */
  const InvalidCouponMessage: string := "Coupon code invalid."

  /** The promotion chosen at checkout, and the warning raised, if any. */
  datatype Promotion = Promotion(order: CostNode, warning: Option<string>)

  datatype Option<T> = None | Some(value: T)

  /** The coupon branch: SAVE10 is tried first, then FLAT50, then any non-empty text is invalid. */
  function Classify(input: string): Coupon
  {
    ClassifyCode(Trim(input))
  }

  /** The branch taken on the already trimmed code. */
  function ClassifyCode(code: string): Coupon
  {
    if EqualsIgnoreCase(code, "SAVE10") then Save10
    else if EqualsIgnoreCase(code, "FLAT50") then Flat50
    else if code != [] then Unrecognised
    else NoCoupon
  }

  /** Wraps the base cost in the decorator the coupon names; an invalid coupon
      is only a warning, and the base cost stands. */
  function ApplyCoupon(base: real, input: string): Promotion
  {
    match Classify(input)
    case Save10 => Promotion(Pct(Base(base), 10.0), None)
    case Flat50 => Promotion(Flat(Base(base), 50.0), None)
    case Unrecognised => Promotion(Base(base), Some(InvalidCouponMessage))
    case NoCoupon => Promotion(Base(base), None)
  }

  /** Which coupon a text is, stated on its trimmed upper-case form. */
  lemma ClassifyByUpperCase(input: string)
    ensures var code := UpperCase(Trim(input));
      && (Classify(input) == Save10 <==> code == "SAVE10")
      && (Classify(input) == Flat50 <==> code == "FLAT50")
      && (Classify(input) == NoCoupon <==> code == [])
      && (Classify(input) == Unrecognised <==> code != [] && code != "SAVE10" && code != "FLAT50")
  {
    ClassifyCodeByUpperCase(Trim(input));
  }

  lemma ClassifyCodeByUpperCase(code: string)
    ensures var up := UpperCase(code);
      && (ClassifyCode(code) == Save10 <==> up == "SAVE10")
      && (ClassifyCode(code) == Flat50 <==> up == "FLAT50")
      && (ClassifyCode(code) == NoCoupon <==> up == [])
      && (ClassifyCode(code) == Unrecognised <==> up != [] && up != "SAVE10" && up != "FLAT50")
  {
    EqualsIgnoreCaseIsUpperEquality(code, "SAVE10");
    EqualsIgnoreCaseIsUpperEquality(code, "FLAT50");
    assert UpperCase("SAVE10") == "SAVE10";
    assert UpperCase("FLAT50") == "FLAT50";
  }

  /** The amount each coupon leaves to pay, and when checkout warns. */
  lemma CouponOutcome(base: real, input: string)
    ensures var p, code := ApplyCoupon(base, input), UpperCase(Trim(input));
      && (code == "SAVE10" ==> Cost(p.order) == base * 0.9 && p.warning == None)
      && (code == "FLAT50" ==> Cost(p.order) == Max(0.0, base - 50.0) && p.warning == None)
      && (code == [] ==> p.order == Base(base) && p.warning == None)
      && (p.warning != None <==> code != [] && code != "SAVE10" && code != "FLAT50")
      && (p.warning != None ==> p.order == Base(base) && p.warning == Some(InvalidCouponMessage))
  {
    ClassifyByUpperCase(input);
  }

  /** The chosen promotion always has the base amount at its root and at most one rule. */
  lemma PromotionShape(base: real, input: string)
    ensures var p := ApplyCoupon(base, input);
      BaseTotal(p.order) == base && |Adjustments(p.order)| <= 1 && WellFormed(p.order)
  {
  }

  /** A non-negative base stays non-negative and is never raised by any coupon. */
  lemma CouponWithinBase(base: real, input: string)
    requires base >= 0.0
    ensures 0.0 <= Cost(ApplyCoupon(base, input).order) <= base
  {
    var p := ApplyCoupon(base, input);
    PromotionShape(base, input);
    ChainWithinBase(p.order);
  }

  /** Surrounding blanks and letter case do not matter: "  save10 " is SAVE10. */
  lemma PaddedCouponExample()
    ensures Classify("  save10 ") == Save10
  {
    PaddedCodeTrims();
    assert Classify("  save10 ") == ClassifyCode("save10");
    LowerCaseSave10();
  }

  lemma LowerCaseSave10()
    ensures ClassifyCode("save10") == Save10
  {
    assert UpperCase("save10") == "SAVE10";
    ClassifyCodeByUpperCase("save10");
  }

  /** Any other non-empty code is unrecognised; the empty code is no coupon. */
  lemma UnknownCouponExample()
    ensures Classify("SAVE20") == Unrecognised
    ensures Classify("") == NoCoupon
  {
    TrimUnpadded("SAVE20");
    assert Classify("SAVE20") == ClassifyCode("SAVE20");
    UnknownCode();
  }

  lemma UnknownCode()
    ensures ClassifyCode("SAVE20") == Unrecognised
  {
    assert UpperCase("SAVE20") == "SAVE20";
    ClassifyCodeByUpperCase("SAVE20");
  }

  lemma PaddedCodeTrims()
    ensures Trim("  save10 ") == "save10"
  {
    TrimPadded("  ", "save10", " ");
    assert "  " + "save10" + " " == "  save10 ";
  }
}
