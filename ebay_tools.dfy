/**
 * The fee estimate of the eBay tool set: a flat $0.35 plus 12.9% of the
 * price, whatever the category. The tool's OAuth and search calls are not
 * part of this model.
 */
module EbayTools {
  import FeeService
  import EbayService

  const BaseFee := 0.35
  const PercentFeeRate := 0.129

  /** The dict `calculate_ebay_fees` returns. */
  datatype ToolFees = ToolFees(baseFee: real, percentFee: real, totalFee: real, netAmount: real)

  /**
   * `calculate_ebay_fees`: the flat fee and the percentage fee make up the
   * total, and the net amount is what remains of the price.
   */
  function CalculateEbayFees(categoryId: string, price: real): (f: ToolFees)
    ensures f.baseFee == BaseFee
    ensures f.totalFee == f.baseFee + f.percentFee
    ensures f.netAmount + f.totalFee == price
    ensures price >= 0.0 ==> 0.0 <= f.percentFee <= price
  {
    var percentFee := price * PercentFeeRate;
    var totalFee := BaseFee + percentFee;
    ToolFees(BaseFee, percentFee, totalFee, price - totalFee)
  }

  /** The category has no effect on the estimate. */
  lemma CategoryIrrelevant(c1: string, c2: string, price: real)
    ensures CalculateEbayFees(c1, price) == CalculateEbayFees(c2, price)
  {
  }

  /** Every extra dollar of price adds 12.9 cents of fees and 87.1 cents of net amount. */
  lemma MarginalRates(categoryId: string, p1: real, p2: real)
    ensures CalculateEbayFees(categoryId, p2).totalFee - CalculateEbayFees(categoryId, p1).totalFee == 0.129 * (p2 - p1)
    ensures CalculateEbayFees(categoryId, p2).netAmount - CalculateEbayFees(categoryId, p1).netAmount == 0.871 * (p2 - p1)
  {
  }

  /**
   * The three eBay fee formulas of the code base disagree: on a $100 sale
   * with no shipping the fee service charges $15.90, the eBay service $16.45
   * and the tool $13.25.
   */
  lemma EbayRatesDisagree()
    ensures FeeService.TotalFees(FeeService.Ebay, 100.0, 0.0, FeeService.NoOptions) == 15.90
    ensures EbayService.CalculateFees(100.0).totalFees == 16.45
    ensures CalculateEbayFees("", 100.0).totalFee == 13.25
  {
    EbayService.FeesAtHundred();
  }
}
