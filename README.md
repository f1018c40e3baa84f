# Listing assistant: fee, pricing and recommendation core in Dafny

This project models the deterministic money and scoring logic of a resale-listing assistant. The assistant identifies a
product from a photo, researches marketplace prices, prices the listing and recommends where to sell. The model covers:

- the fee and profit engine for eight marketplaces (eBay, Amazon, Etsy, Facebook Marketplace, Mercari, Poshmark,
  Depop, Vinted), the platform comparison and the recommended platform (`FeeService`);
- the pricing strategies, fee-adjusted platform pricing and market-position analysis (`PricingAgent`);
- the platform suitability scores, ranking, summary and confidence (`RecommendationAgent`);
- eBay research statistics and their aggregation over platforms (`MarketplaceAgent`);
- the smaller fee formulas, percentile and classifiers of the eBay service and tools (`EbayService`, `EbayTools`);
- platform fees, the ordered platform merge, trend messages and the eBay price range of the marketplace service
  (`MarketplaceService`);
- Google Shopping result shaping, price insights and the merchant comparison (`GoogleShopping`);
- the vision agent's category and condition mappers and image-quality score (`VisionAgent`), the combination of
  several vision services' answers (`VisionService`) and the Azure response reshaping (`MicrosoftVision`);
- configuration lookups, API-key validation, the user quota and the product field validators (`Config`, `User`,
  `Product`).

Support modules hold what the Python code takes from its runtime: `Wrappers` (Option, Result), `Numbers` (sum, mean,
min, max, half-up rounding to one and two places, `int()` truncation), `Sorting` (a stable sort by a key, standing for
`sorted` and `list.sort`), `Text` (ASCII lower-casing, substring search, join, strip, distinctness), `Detections` (the named, scored entries both vision
services return) and `Stats` (the indexed median
`sorted(xs)[n // 2]` and `statistics.median`).

Money is an exact `real`. Python dicts returned by the code become datatypes, and dicts used as ordered tables become
sequences of pairs. A Python exception on a reachable input (a division by zero, `max` of an empty list, a `ValueError`)
becomes the `Err` case of a `Result`. Loops in the source are methods with loops, proved equal to a specification
function whose properties are proved as lemmas. Each file keeps its own constants: the three eBay fee calculations of
the system disagree, and `EbayTools.EbayRatesDisagree` records by how much.

Where the code and its documentation differ, the model follows the code. The indexed median `sorted(xs)[n // 2]` picks
the upper middle element of an even-length list, not the lower one. `MarketplaceService.get_platform_fees` looks its
rate up without lower-casing the platform name, unlike `config.get_marketplace_fee`.

## Model

| member | source | states |
|---|---|---|
| FeeService.EbayFees | api/src/services/fee_service.py:163-190 | eBay's total is the final value fee and the payment processing fee on sale plus shipping, plus the international fee when asked; the breakdown lists them in that order, then any known store subscription |
| FeeService.AmazonFees | api/src/services/fee_service.py:192-216 | Amazon charges the category's referral rate (default rate for an unknown category) on the sale price, plus fulfilment and storage (rate × cubic feet × months, both defaulting to 1) under FBA |
| FeeService.EtsyFees | api/src/services/fee_service.py:218-238 | Etsy charges the listing fee, the transaction fee on the sale price and the payment fee on sale plus shipping plus the fixed part, in that order |
| FeeService.FacebookFees | api/src/services/fee_service.py:240-257 | Facebook Marketplace charges the selling and payment fees only for shipped items, shipped being the default |
| FeeService.MercariFees | api/src/services/fee_service.py:259-280 | Mercari charges the selling fee, the payment fee and, for luxury authentication, the authentication fee |
| FeeService.PoshmarkFees | api/src/services/fee_service.py:282-296 | Poshmark's single commission line |
| FeeService.DepopFees | api/src/services/fee_service.py:298-320 | Depop's selling fee and payment fee, with the PayPal rate for "paypal" and the Depop Payments rate otherwise, both adding the PayPal fixed fee |
| FeeService.VintedFees | api/src/services/fee_service.py:322-331 | Vinted: a zero seller fee and a note in the breakdown, a total of zero |
| FeeService.BreakdownAccountsForTotal | api/src/services/fee_service.py:163-331 | for every platform the total equals the sum of the charged breakdown amounts (the store subscription is listed but never charged; Vinted's note is not an amount) |
| FeeService.TotalFees | api/src/services/fee_service.py:163-331 | the fees charged per platform; Vinted and an unshipped Facebook sale cost nothing |
| FeeService.FeeLines | api/src/services/fee_service.py:163-331 | the reported breakdown per platform, empty exactly for an unshipped Facebook sale |
| FeeService.FeeLinesAreDict | api/src/services/fee_service.py:163-331 | no breakdown key occurs twice, and only Vinted's breakdown holds a note instead of an amount |
| FeeService.EbayBreakdownTotal | api/src/services/fee_service.py:163-190 | eBay's total is the sum of its breakdown except the store subscription |
| FeeService.AmazonBreakdownTotal | api/src/services/fee_service.py:192-216 | Amazon's total is the sum of its breakdown |
| FeeService.MercariBreakdownTotal | api/src/services/fee_service.py:259-280 | Mercari's total is the sum of its breakdown |
| FeeService.FeesNonnegative | api/src/services/fee_service.py:21-90 | with a non-negative sale, shipping cost, volume and storage time, no platform's fees are negative |
| FeeService.StoreSubscriptionNotCharged | api/src/services/fee_service.py:185-188 | the store subscription never changes eBay's total, yet a basic store appears as the last breakdown line at 7.95 |
| FeeService.AmazonReferral | api/src/services/fee_service.py:197-202 | without FBA, Amazon charges 15% for a category outside its table, 8% for electronics, and ignores shipping |
| FeeService.FacebookPickupFree | api/src/services/fee_service.py:245-255 | a local-pickup sale on Facebook Marketplace costs nothing and has an empty breakdown |
| FeeService.PoshmarkCommission | api/src/services/fee_service.py:287-291 | Poshmark ignores shipping and options: 2.95 below a 15 sale, 20% of the sale from 15 up |
| FeeService.DepopPaymentMethodIrrelevant | api/src/services/fee_service.py:309-314 | the two Depop payment branches charge the same, since the table gives both rates as 2.9% |
| FeeService.VintedFree | api/src/services/fee_service.py:322-331 | Vinted sellers pay nothing |
| FeeService.Quote | api/src/services/fee_service.py:145-161 | revenue, fees, item cost and profit balance; the margin times the gross revenue is 100 × the profit when the gross revenue is positive, and 0 otherwise; the fees are the charged breakdown |
| FeeService.ProfitNotClamped | api/src/services/fee_service.py:147-149 | a sale below cost reports a negative profit and margin (10 sale, 25 cost on Vinted: −15 and −150%) |
| FeeService.CalculateFees | api/src/services/fee_service.py:92-161 | a `ValueError` exactly for a platform outside the fee table, with its message; otherwise the platform's quote |
| FeeService.Successes | api/src/services/fee_service.py:355-364 | the quotes of the loop never outnumber the platforms asked for |
| FeeService.SupportedQuoted | api/src/services/fee_service.py:357-362 | every supported platform in the list contributes its quote |
| FeeService.AllArgs | api/src/services/fee_service.py:352-353 | no list means every platform of the enumeration, in order |
| FeeService.SuccessesOfSupported | api/src/services/fee_service.py:355-364 | a list of supported platforms yields one quote per entry |
| FeeService.ComparePlatforms | api/src/services/fee_service.py:333-368 | the result is the stable profit sort of the successful quotes of the list (of all eight platforms when none is named): a permutation of them, ordered by profit from highest, and for all eight the quotes of equal profit stay in enumeration order |
| FeeService.ProfitSort | api/src/services/fee_service.py:366-367 | a profit sort is ordered by profit and keeps the order of quotes of equal profit |
| FeeService.AllSuccesses | api/src/services/fee_service.py:352-364 | quoting the eight platforms never raises: the successes are the eight quotes in enumeration order |
| FeeService.AllQuotes | api/src/services/fee_service.py:352-364 | the quote of each of the eight platforms, in enumeration order |
| FeeService.Recommend | api/src/services/fee_service.py:383-409 | no recommendation exactly for an empty comparison; otherwise the platform, expected profit, margin, total fees, net revenue and breakdown of the first entry, the whole comparison, and an advantage equal to the first profit minus the second (0 with a single entry) |
| FeeService.RecommendIsBest | api/src/services/fee_service.py:389-396 | on a profit-sorted list the recommended profit is the greatest and the advantage is non-negative, 0 for a single platform |
| FeeService.GetRecommendedPlatform | api/src/services/fee_service.py:370-409 | the recommendation built from the profit-sorted quotes of all eight platforms, so there always is one: the earliest platform in enumeration order whose profit is the greatest of all eight, and an advantage that is its profit minus that of another platform which every platform but the recommended one at most matches, so it is non-negative |
| FeeService.RankedQuotes | api/src/services/fee_service.py:392-399 | the first of the sorted eight quotes is the earliest platform of greatest profit; the second is another platform's quote that no platform but the first beats |
| FeeService.HeadIsBest | api/src/services/fee_service.py:366-367 | the head of a profit sort has the greatest profit of its input |
| FeeService.EarliestBest | api/src/services/fee_service.py:366-367 | the head of the stable profit sort is the earliest quote of greatest profit in the input |
| FeeService.RunnerUp | api/src/services/fee_service.py:395-397 | in a profit-descending permutation of quotes for distinct platforms the second entry is another platform's quote, at least as profitable as every platform but the first |
| FeeService.QuotesDistinct | api/src/services/fee_service.py:352-353 | the eight quotes name eight different platforms |
| FeeService.ProfitsByPlatform | api/src/services/fee_service.py:392-399 | the positional facts about the eight quotes, restated per platform |
| FeeService.Index | api/src/services/fee_service.py:353 | each platform's position in the enumeration |
| FeeService.IndexOfPosition | api/src/services/fee_service.py:353 | the position of the platform at position k is k |
| FeeService.NamesDistinct | api/src/services/fee_service.py:353 | two platforms have the same name exactly when they are the same platform |
| FeeService.QuoteOfEveryPlatform | api/src/services/fee_service.py:352-364 | with no list given, every platform's quote is compared |
| FeeService.SuccessesAreQuotes | api/src/services/fee_service.py:357-362 | every compared entry is the quote of some platform |
| PricingAgent.ExtractMarketPrices | api/src/agents/pricing_agent.py:51-69 | the result is the ascending sort of the positive values among the (minimum, average, maximum) triples of the platforms whose statistics report a positive average: a permutation of them, all positive, in non-decreasing order |
| PricingAgent.CompetitivePricing | api/src/agents/pricing_agent.py:71-90 | no market data exactly for an empty price list; otherwise 95% of the median (averaging the two middle values) to within half a cent |
| PricingAgent.QuickSalePricing | api/src/agents/pricing_agent.py:92-109 | no market data exactly for an empty price list; otherwise 78% of the median to within half a cent |
| PricingAgent.PremiumPricing | api/src/agents/pricing_agent.py:111-128 | no market data exactly for an empty price list; otherwise 112% of the median to within half a cent |
| PricingAgent.AuctionPricing | api/src/agents/pricing_agent.py:130-147 | no market data exactly for an empty price list; otherwise 65% of the median to within half a cent |
| PricingAgent.CalculateStrategies | api/src/agents/pricing_agent.py:26-31 | all four strategies lack market data exactly when there are no market prices, and are all priced otherwise |
| PricingAgent.NoMarketDataPricesZero | api/src/agents/pricing_agent.py:75-76 | without market prices all four strategies report "no_market_data" at price 0 |
| PricingAgent.StrategyOrder | api/src/agents/pricing_agent.py:78-145 | on positive prices auction start ≤ quick sale ≤ competitive ≤ premium, all non-negative, and the auction's expected final price is the competitive price |
| PricingAgent.ScaledPricesOrdered | api/src/agents/pricing_agent.py:82-145 | rounding keeps the order of the four multipliers 0.65 ≤ 0.78 ≤ 0.95 ≤ 1.12 of a non-negative median |
| PricingAgent.AdjustPriceForFees | api/src/agents/pricing_agent.py:178-191 | a positive fee rate grosses the price up so that removing the rate leaves base plus fixed fees; a rate of 100% divides by zero (the error); a rate ≤ 0 adds the fixed fees only |
| PricingAgent.AssessPlatformSuitability | api/src/agents/pricing_agent.py:193-209 | "unknown" exactly when the research carries an error |
| PricingAgent.SuitabilityMonotone | api/src/agents/pricing_agent.py:200-209 | more listings never give a worse tier among poor, fair, good and excellent |
| PricingAgent.PricingFor | api/src/agents/pricing_agent.py:158-174 | one platform's entry: the fee-adjusted optimal price and the net profit to within half a cent, the margin to within 0.05 points of (optimal − fees)/optimal·100 (0 for a non-positive optimal price), the calculator's fees and the suitability; fails exactly when the fee rate is 100% |
| PricingAgent.MarginBounds | api/src/agents/pricing_agent.py:172 | the margin rounded to one place is within 0.05 points of the exact percentage |
| PricingAgent.CalculatePlatformPricing | api/src/agents/pricing_agent.py:149-176 | one entry per platform of the fixed five, in order, each priced from the competitive price; the pricing fails exactly when some platform's fee rate is 100% |
| PricingAgent.RecommendedStrategy | api/src/agents/pricing_agent.py:224-229 | the recommendation is always one of quick_sale, premium or competitive |
| PricingAgent.FirstMaxIndex | api/src/agents/pricing_agent.py:232-235 | Python's `max` with a key: an entry whose key (net profit, 0 when "poor") no entry exceeds, and the first such |
| PricingAgent.Alternatives | api/src/agents/pricing_agent.py:242-251 | the alternatives are exactly the strategies other than the recommended one with a positive price, each with its price |
| PricingAgent.AlternativesInOrder | api/src/agents/pricing_agent.py:242-251 | the alternatives are the entries at strictly increasing positions of the strategy list, each one an alternative, and every alternative's position is among them: nothing invented, dropped or reordered |
| PricingAgent.GeneratePricingRecommendations | api/src/agents/pricing_agent.py:211-254 | fails (empty `max`) exactly without platforms; otherwise the recommended strategy is the one the priority chooses, the recommended price is that strategy's price, the best platform is the first with the greatest key, and the alternatives are the order-preserving filter of the four strategies |
| PricingAgent.PriorityChoosesStrategy | api/src/agents/pricing_agent.py:225-229 | quick_sale gives quick_sale, max_profit gives premium, and exactly every other priority gives competitive |
| PricingAgent.PositionBandMonotone | api/src/agents/pricing_agent.py:324-333 | a higher price ratio never gives a cheaper market-position band |
| PricingAgent.PositionBand | api/src/agents/pricing_agent.py:324-333 | at market exactly within [0.95, 1.05) of the median, well below exactly under 0.8, well above exactly from 1.2 |
| PricingAgent.AssessCompetitiveAdvantage | api/src/agents/pricing_agent.py:342-353 | neutral exactly at market, and a known advantage exactly for the five bands |
| PricingAgent.AdvantageOneToOne | api/src/agents/pricing_agent.py:342-353 | distinct bands map to distinct advantage labels and no band maps to "unknown" |
| PricingAgent.AnalyzeMarketPosition | api/src/agents/pricing_agent.py:309-340 | "insufficient_market_data" for no prices; otherwise one position per positively priced strategy against the median; the division fails only on a zero median |
| PricingAgent.AnalysisSucceedsOnMarketPrices | api/src/agents/pricing_agent.py:313-317 | on the positive prices the extraction yields, the median is positive, so the analysis never fails there |
| RecommendationAgent.AudienceMatch | api/src/agents/recommendation_agent.py:193-209 | the audience match always lies in [0, 10] |
| RecommendationAgent.ProfileOf | api/src/agents/recommendation_agent.py:48-140 | the empty profile exactly for a platform outside the five analysed ones |
| RecommendationAgent.QualityBonusNeverGiven | api/src/agents/recommendation_agent.py:201-204 | with the five built-in profiles the 1.5 quality bonus is never given, so the audience match is at most 7.5 |
| RecommendationAgent.NoQualityAudience | api/src/agents/recommendation_agent.py:48-140 | no profile's buying behaviour contains "high_quality" (nor does the empty profile of an unknown platform) |
| RecommendationAgent.NoQInBehavior | api/src/agents/recommendation_agent.py:48-140 | no profile's buying behaviour contains the letter q |
| RecommendationAgent.NoQInBehaviors | api/src/agents/recommendation_agent.py:48-140 | none of the five buying-behaviour strings contains the letter q |
| RecommendationAgent.CategoryFit | api/src/agents/recommendation_agent.py:211-222 | 9 exactly on membership, 7 exactly when the category is not a member but contains some focus string, 5 exactly otherwise |
| RecommendationAgent.CategoryFitMoreFocus | api/src/agents/recommendation_agent.py:211-222 | a longer focus list never lowers the fit |
| RecommendationAgent.FeeCompetitiveness | api/src/agents/recommendation_agent.py:224-242 | the score lies in [2, 10]; it is 10 exactly for a margin of at least 80 and 2 exactly below 40 |
| RecommendationAgent.FeeCompetitivenessMonotone | api/src/agents/recommendation_agent.py:230-242 | a higher margin never gives a lower score |
| RecommendationAgent.EaseOfUse | api/src/agents/recommendation_agent.py:244-253 | 9 exactly for "easy", 4 exactly for "difficult", 7 exactly for anything else |
| RecommendationAgent.MarketDataScore | api/src/agents/recommendation_agent.py:255-287 | 5 for research with an error; the score always lies in [3, 10] |
| RecommendationAgent.SoldBonusByCounts | api/src/agents/recommendation_agent.py:278-285 | the bonus is 1 exactly when more than half sold, 0.5 exactly when at most half and more than 30% sold, 0 otherwise |
| RecommendationAgent.MarketDataScoreMoreSold | api/src/agents/recommendation_agent.py:255-287 | more sold listings never lower the market score |
| RecommendationAgent.WeightsSumToOne | api/src/agents/recommendation_agent.py:157-163 | the weights 0.25, 0.25, 0.20, 0.15, 0.15 sum to 1 |
| RecommendationAgent.OverallScore | api/src/agents/recommendation_agent.py:157-163 | equal components give that component back: the weights sum to one |
| RecommendationAgent.OverallScoreWithin | api/src/agents/recommendation_agent.py:157-163 | the weighted score lies within any bounds that hold every component |
| RecommendationAgent.PricingLookup | api/src/agents/recommendation_agent.py:226 | a platform's pricing entry is found exactly when the table has one |
| RecommendationAgent.Projections | api/src/agents/recommendation_agent.py:289-305 | the projections copy the pricing entry's optimal price, total fees, net profit and margin, all 0 without an entry |
| RecommendationAgent.RawScore | api/src/agents/recommendation_agent.py:142-163 | the unrounded overall score lies in [4.45, 9.225] for every platform |
| RecommendationAgent.Round1Score | api/src/agents/recommendation_agent.py:175 | rounding a score in [0, 10] to one place keeps it in [0, 10] and moves it by at most 0.05 |
| RecommendationAgent.EstimateTimeToSell | api/src/agents/recommendation_agent.py:392-419 | the base days adjusted for demand (default medium) and then for the score, each step truncated; always between 1 and 27 days |
| RecommendationAgent.TimeToSell | api/src/agents/recommendation_agent.py:399-419 | medium demand and a score strictly between 5 and 8 leave the platform's base days unchanged |
| RecommendationAgent.TimeToSellBounds | api/src/agents/recommendation_agent.py:399-419 | every estimate lies between 1 and 27 days |
| RecommendationAgent.TimeToSellScoreMonotone | api/src/agents/recommendation_agent.py:414-417 | a higher score never predicts a slower sale |
| RecommendationAgent.TimeToSellDemandOrder | api/src/agents/recommendation_agent.py:408-417 | high demand is never slower than medium and medium never slower than low |
| RecommendationAgent.AnalyzePlatform | api/src/agents/recommendation_agent.py:142-191 | the analysis carries the overall score rounded to one place (within 0.05 of the exact weighted score and in [0, 10]), the rounded components, the projections, the profile's strengths, weaknesses and listing time, and the sale estimate from the exact score |
| RecommendationAgent.Candidates | api/src/agents/recommendation_agent.py:427-434 | the candidates are the ranked forms of the entries without an error, one per such entry, all of them when none failed |
| RecommendationAgent.CandidatesAppend | api/src/agents/recommendation_agent.py:427-434 | one entry gives its candidate exactly when it has no error, and the candidates of two runs of entries are those of the first followed by those of the second, so order and repeats are kept |
| RecommendationAgent.RankPlatforms | api/src/agents/recommendation_agent.py:421-437 | the stable sort of the candidates by score and then net profit, highest first: a permutation of them in which candidates tying on both keys keep their order |
| RecommendationAgent.CategoryAdvice | api/src/agents/recommendation_agent.py:475-501 | three lines of advice for every category |
| RecommendationAgent.GenerateSummaryRecommendations | api/src/agents/recommendation_agent.py:439-473 | "No suitable platforms found" exactly for an empty ranking; otherwise the first entry as primary and the next at most two as alternatives, in order, with the category's advice (category default "unknown") |
| RecommendationAgent.ValidScores | api/src/agents/recommendation_agent.py:507-511 | the valid scores are exactly the scores of the entries without an error |
| RecommendationAgent.Confidence | api/src/agents/recommendation_agent.py:513-528 | 0 exactly without scores, otherwise in [0.6, 0.9]; 0.9 only with a top score of 8 and a spread of 2; 0.6 whenever the top score is below 6 |
| RecommendationAgent.ConfidenceOrderInsensitive | api/src/agents/recommendation_agent.py:513-528 | the confidence depends only on the multiset of scores, not their order |
| RecommendationAgent.CalculateOverallConfidence | api/src/agents/recommendation_agent.py:503-528 | the loop collects the valid scores and returns their confidence |
| RecommendationAgent.AnalyzeAll | api/src/agents/recommendation_agent.py:26-30 | one entry per platform, in order, each analysed with that platform's rounded score and projections |
| RecommendationAgent.Run | api/src/agents/recommendation_agent.py:18-46 | all five platforms analysed in order, a ranking that permutes all five, a summary whose primary has the top score, and a confidence in [0.6, 0.9] |
| MarketplaceAgent.Lookup | api/src/agents/pricing_agent.py:159 | `platform_data.get(name, {})`: a platform missing from the table reads as the empty research dict |
| MarketplaceAgent.DemandByCounts | api/src/agents/marketplace_agent.py:199-214 | demand is "high" exactly when more than 70% of the listings sold, "medium" exactly when more than 40% and at most 70%, "low" otherwise |
| MarketplaceAgent.AssessDemand | api/src/agents/marketplace_agent.py:199-214 | unknown exactly without listings, otherwise high, medium or low |
| MarketplaceAgent.MarketActivity | api/src/agents/marketplace_agent.py:187 | high exactly above 100 listings, low exactly at 20 or fewer |
| MarketplaceAgent.PartitionCounts | api/src/agents/marketplace_agent.py:63-71 | every positively priced item is either sold (listing ended) or active, and there are no more of them than items |
| MarketplaceAgent.StatisticsOrdered | api/src/agents/marketplace_agent.py:74-80 | minimum ≤ median ≤ maximum and minimum ≤ average ≤ maximum; minimum and maximum are prices of the list |
| MarketplaceAgent.ResearchEbay | api/src/agents/marketplace_agent.py:46-99 | the eBay research dict: every listing counted, positively priced ones split into sold and active, statistics over their prices, demand from the two counts, the first ten listings as samples |
| MarketplaceAgent.CountedStep | api/src/agents/marketplace_agent.py:170-176 | one more platform adds its (minimum, average, maximum) triple and its listings exactly when it has no error and a positive average price |
| MarketplaceAgent.AggregateResearchData | api/src/agents/marketplace_agent.py:162-197 | the summary counts exactly the platforms without error and with a positive average, spans the min and max of their triples with the mean between, and is all zero and "unknown" when none counts |
| MarketplaceAgent.ItemPricesPositive | api/src/agents/marketplace_agent.py:64-66 | only positive prices are kept |
| MarketplaceAgent.Simulated | api/src/agents/marketplace_agent.py:101-160 | the four simulated platforms report no price statistics, so the aggregation never counts them |
| MarketplaceAgent.CountedOnlyFirst | api/src/agents/marketplace_agent.py:168-176 | when only the first platform may count, the aggregation counts at most that one |
| MarketplaceAgent.Run | api/src/agents/marketplace_agent.py:20-44 | researches eBay and the four simulated platforms in that order; a failed search becomes eBay's error entry; the summary has data from eBay alone, exactly when the search found a positively priced item, and then spans eBay's price range |
| MarketplaceAgent.ReportingIffPrices | api/src/agents/marketplace_agent.py:75-81 | over positive prices the eBay average is positive exactly when there is some price, so eBay is counted exactly then |
| MarketplaceAgent.OneCounted | api/src/agents/marketplace_agent.py:174-183 | a single counted platform's summary spans its own minimum and maximum |
| MarketplaceService.GetPlatformFees | api/src/services/marketplace_service.py:180-209 | eBay exactly is delegated to the eBay fee calculation; every other platform's report adds 2.9% + $0.30 processing to its platform fee, fees plus net profit give back the price, and the fee percentage is the fees' share of a positive price (0 otherwise) |
| MarketplaceService.PlatformFeeRates | api/src/services/marketplace_service.py:185-200 | Amazon pays 15% + $3, Facebook 5%, Poshmark 20%, any other platform its first configured rate or 10% when it has none |
| MarketplaceService.PlatformFeeIsCaseSensitive | api/src/services/marketplace_service.py:186 | the rate lookup is case-sensitive: "vinted" pays its configured 7% and "Vinted" the 10% default |
| MarketplaceService.Preferred | api/src/services/marketplace_service.py:224-233 | three distinct platforms: eBay, Amazon, Poshmark above a median of 100; Facebook, Mercari, Vinted below 25; eBay, Mercari, Poshmark otherwise |
| MarketplaceService.AppendNew | api/src/services/marketplace_service.py:245-247 | keeps the accumulated list as a prefix, holds the elements of both lists, and never introduces a repeat |
| MarketplaceService.AppendNewSplit | api/src/services/marketplace_service.py:244-249 | merging one name adds it at the end exactly when it is not yet present, and merging `a + b` is merging `a` then `b`, so the new names come once each in order of first occurrence |
| MarketplaceService.FirstFiveOfMerge | api/src/services/marketplace_service.py:237-249 | the first five of the merge are 3 to 5 distinct platforms starting with the preferred ones, drawn from the two lists, and miss none of the category's platforms unless all five places are taken |
| MarketplaceService.BestPlatformsShape | api/src/services/marketplace_service.py:211-249 | the recommendation starts with the price band's three preferred platforms, has 3 to 5 distinct entries from the preferred and category lists (unknown categories fall back to eBay and Mercari), and omits a category platform only when full |
| MarketplaceService.GetBestPlatformsForCategory | api/src/services/marketplace_service.py:211-249 | the loops return the first five of the preferred platforms followed by the category's platforms not yet listed |
| MarketplaceService.TrendRecommendation | api/src/services/marketplace_service.py:269-278 | each of the four messages is returned exactly under its condition: a rise or decline stronger than 0.2, a stable market, anything else |
| MarketplaceService.TrendDependsOnThresholdOnly | api/src/services/marketplace_service.py:271-278 | two strengths on the same side of 0.2 give the same message |
| MarketplaceService.EbayPriceRangeAsWritten | api/src/services/marketplace_service.py:75-84 | no range exactly when no completed price is positive; otherwise the range as constructed |
| MarketplaceService.EbayPriceRangeAlwaysRejected | api/src/services/marketplace_service.py:80-84 | whenever some price is positive, the price range as written is rejected for its three missing required fields |
| MarketplaceService.EbayPriceRange | api/src/services/marketplace_service.py:75-84 | no range exactly when no price is positive; otherwise the least positive price, the greatest, and as median the element at index n // 2 of the sorted positive prices |
| EbayService.CalculateFees | api/src/services/ebay_service.py:114-134 | each reported amount lies within half a cent of its formula: the 13.25% final value fee, the 2.9% + $0.30 processing fee, their total and the net profit; net profit plus fees gives back the price within a cent; for a positive price the fee percentage is within 0.005 percentage points of the fees' share of the price and at least 16.15%, and 0 otherwise |
| EbayService.FeeShare | api/src/services/ebay_service.py:133 | the fees' share of a positive price is 16.15% plus $30 over the price, so its rounding is at least 16.15% |
| EbayService.FeesAtHundred | api/src/services/ebay_service.py:114-134 | a $100 sale reports 13.25, 3.20, 16.45, 83.55 and 16.45% |
| EbayService.PyIndex | api/src/services/ebay_service.py:192-197 | Python indexing: defined exactly for indices in [-n, n), the element itself for non-negative ones |
| EbayService.PositionBounds | api/src/services/ebay_service.py:190 | the position grows with the percentile and runs from 0 at the 0th to n - 1 at the 100th |
| EbayService.ValueAtBetween | api/src/services/ebay_service.py:192-197 | an interpolated value lies between the two sorted neighbours of its position |
| EbayService.ValueAtMonotone | api/src/services/ebay_service.py:192-197 | on sorted values, a later position never gives a smaller value |
| EbayService.PercentileOfSortedIsValueAt | api/src/services/ebay_service.py:188-197 | for a percentile in [0, 100] the Python indexing never fails and gives the interpolated value at the position |
| EbayService.SortedEnds | api/src/services/ebay_service.py:188 | the sorted values ascend from the minimum to the maximum |
| EbayService.PercentileWithinRange | api/src/services/ebay_service.py:184-197 | every percentile in [0, 100] of a non-empty list succeeds and lies between its minimum and maximum |
| EbayService.PercentileEnds | api/src/services/ebay_service.py:184-197 | the 0th percentile is the minimum and the 100th the maximum |
| EbayService.PercentileMonotone | api/src/services/ebay_service.py:184-197 | a higher percentile is never smaller |
| EbayService.CalculatePercentile | api/src/services/ebay_service.py:184-197 | 0 for no values, and never an index error for a percentile in [0, 100] |
| EbayService.AssessCompetitionLevel | api/src/services/ebay_service.py:205-212 | "high" exactly above 1000 active listings, "low" exactly at 100 or fewer |
| EbayService.AssessTrending | api/src/services/ebay_service.py:214-216 | trending needs at least one active listing, and never holds with no more active than completed listings |
| EbayService.PresentPrices | api/src/services/ebay_service.py:95-96 | the kept values are the items' prices that are present and non-zero |
| EbayService.PresentPricesAppend | api/src/services/ebay_service.py:95-96 | one item gives its price exactly when present and non-zero, and the prices of two runs of items are those of the first followed by those of the second, so order and repeats are kept |
| EbayService.PriceListFacts | api/src/services/ebay_service.py:101-106 | on a non-empty list the mean lies between minimum and maximum and the 25th percentile is at most the 75th, both within the same bounds |
| EbayService.GetMarketInsights | api/src/services/ebay_service.py:74-112 | the counts of active and completed listings; each average is the mean of its prices or 0 without prices, and lies between its list's extremes; the overall minimum and maximum bound every price and come from the lists; the range is the sold prices' 25th and 75th percentiles; competition by active count; trending exactly when more active than completed; 7 days to sell |
| EbayTools.CalculateEbayFees | api/src/tools/ebay_tools.py:77-94 | a $0.35 base fee plus the percentage fee, the rest of the price being the net amount; for a non-negative price the percentage fee is between 0 and the price |
| EbayTools.CategoryIrrelevant | api/src/tools/ebay_tools.py:77-94 | the category never changes the fees |
| EbayTools.MarginalRates | api/src/tools/ebay_tools.py:84-86 | each extra dollar of price adds 12.9 cents of fees and 87.1 cents of net amount |
| EbayTools.EbayRatesDisagree | api/src/tools/ebay_tools.py:84-86 | on a $100 sale the three eBay fee calculations of the system disagree: 15.90, 16.45 and 13.25 |
| GoogleShopping.ToProduct | api/src/services/google_shopping_service.py:149-178 | without inventories: price 0, currency USD, condition new, availability unknown, no merchant; the price is the first inventory's price value when that price is present and non-empty, 0 otherwise; first GTIN and first image link or empty |
| GoogleShopping.ProcessShoppingResults | api/src/services/google_shopping_service.py:143-185 | one product per raw item, in order, each converted as above, and the total is their number |
| GoogleShopping.PositivePrices | api/src/services/google_shopping_service.py:82-85 | the kept prices are all positive and include every positive product price |
| GoogleShopping.PositivePricesAppend | api/src/services/google_shopping_service.py:82-85 | one product gives its price exactly when positive, and the prices of two runs of products are those of the first followed by those of the second, so order and repeats are kept |
| GoogleShopping.ListOf | api/src/services/google_shopping_service.py:113-114 | listing a set gives each of its elements exactly once |
| GoogleShopping.PriceStatistics | api/src/services/google_shopping_service.py:95-111 | all 0 without prices; otherwise minimum, maximum, mean and upper-middle median each within half a cent of the exact value, ordered minimum ≤ median ≤ maximum and minimum ≤ average ≤ maximum |
| GoogleShopping.SetsStep | api/src/services/google_shopping_service.py:87-93 | each product adds its non-empty merchant and category to the sets |
| GoogleShopping.CollectPrices | api/src/services/google_shopping_service.py:78-93 | the loop collects the positive prices in order and exactly the non-empty merchants and categories |
| GoogleShopping.GetPriceInsights | api/src/services/google_shopping_service.py:61-116 | the empty answer exactly for no products; otherwise the product count, the price statistics of the positive prices, up to 10 distinct merchants and 5 distinct categories drawn from the products, and the first five products |
| GoogleShopping.LowerAll | api/src/services/google_shopping_service.py:210 | lower-cases each merchant name in place |
| GoogleShopping.FilterMerchants | api/src/services/google_shopping_service.py:208-210 | without merchants every product is kept; otherwise the kept products are those whose lower-cased merchant is among the lower-cased names |
| GoogleShopping.FilterMerchantsAppend | api/src/services/google_shopping_service.py:208-210 | filtering two runs of products gives the two filtered runs one after the other, so order and repeats are kept |
| GoogleShopping.FilterMerchantsSingle | api/src/services/google_shopping_service.py:208-210 | with a merchant list, one product is kept exactly when its lower-cased merchant is listed |
| GoogleShopping.FilterIgnoresCase | api/src/services/google_shopping_service.py:210 | lower-casing the requested names does not change the filter |
| GoogleShopping.FilterSameNames | api/src/services/google_shopping_service.py:210 | two name lists equal up to case filter alike |
| GoogleShopping.AddSample | api/src/services/google_shopping_service.py:219-225 | appends the sample to the merchant's existing group, or opens a new group at the end; other groups and all keys unchanged; keys stay distinct |
| GoogleShopping.HasKeyCons | api/src/services/google_shopping_service.py:221 | a key is present in a list of groups exactly when it heads the first group or is present in the rest |
| GoogleShopping.AddSampleKeys | api/src/services/google_shopping_service.py:219-225 | after adding a sample the merchants present are the old ones plus that merchant |
| GoogleShopping.Group | api/src/services/google_shopping_service.py:213-225 | the groups have distinct merchants and none is empty |
| GoogleShopping.GroupCovers | api/src/services/google_shopping_service.py:213-225 | a merchant has a group exactly when some product of it has a positive price |
| GoogleShopping.GroupSamples | api/src/services/google_shopping_service.py:213-225 | each group holds exactly that merchant's positive-price samples, in product order |
| GoogleShopping.KeptEntry | api/src/services/google_shopping_service.py:219-225 | a group opened before the last product still holds exactly its merchant's samples |
| GoogleShopping.NewEntry | api/src/services/google_shopping_service.py:219-225 | a group opened by the last product holds exactly its merchant's samples |
| GoogleShopping.ComparisonOf | api/src/services/google_shopping_service.py:229-240 | a merchant's comparison carries its name, counts its samples and shows the first three; the average is the rounded mean of the sample prices, the lowest their rounded minimum, at most the average and at most every sample's rounded price |
| GoogleShopping.Comparisons | api/src/services/google_shopping_service.py:228-240 | one comparison per group, in group order |
| GoogleShopping.GroupByMerchant | api/src/services/google_shopping_service.py:212-225 | the loop builds exactly the groups defined above |
| GoogleShopping.CompareMerchants | api/src/services/google_shopping_service.py:227-240 | the loop builds exactly one comparison per group |
| GoogleShopping.ComparisonsCount | api/src/services/google_shopping_service.py:212-240 | every comparison's count is the number of that merchant's positive-price products, which is at least one |
| GoogleShopping.SortedByAverage | api/src/services/google_shopping_service.py:243 | a list sorted by the average-price key has non-decreasing averages |
| GoogleShopping.Summarise | api/src/services/google_shopping_service.py:245-253 | no best deal exactly for no comparisons; otherwise the first, cheapest on average; the spread runs from its lowest price to the last average, 0 to 0 when empty |
| GoogleShopping.ComparePrices | api/src/services/google_shopping_service.py:202-253 | the comparisons are the stable sort by average price of one comparison per merchant of the filtered products, so merchants with equal averages stay in first-seen order; each counts that merchant's positive-price products, and the summary and spread are as above |
| VisionAgent.FirstKeyIn | api/src/agents/vision_agent.py:94-96 | the index of the first mapping key the text contains: no earlier key occurs, and the key found does |
| VisionAgent.CategorizeProduct | api/src/agents/vision_agent.py:74-98 | "other" exactly when the lower-cased text contains no mapping key; otherwise the category of a key it contains |
| VisionAgent.CategorizeIgnoresCase | api/src/agents/vision_agent.py:93 | the text's case does not change the category |
| VisionAgent.EarlierKeyWins | api/src/agents/vision_agent.py:94-96 | when the text contains a key, the category comes from that key or an earlier one |
| VisionAgent.ElectronicWins | api/src/agents/vision_agent.py:78-80 | any text containing "electronic" is electronics, whatever else it contains |
| VisionAgent.OtherTextIsOther | api/src/agents/vision_agent.py:64 | the default category text "other" maps to other |
| VisionAgent.Better | api/src/models/product.py:7-13 | the next better condition is one rank higher |
| VisionAgent.AssessCondition | api/src/agents/vision_agent.py:100-117 | the condition whose threshold (9.5, 8.5, 7.0, 5.5, 3.0) the score reaches and the next better one's it does not; a missing score counts as 7.0 and gives very good |
| VisionAgent.ConditionMonotone | api/src/agents/vision_agent.py:106-117 | a higher score never gives a worse condition |
| VisionAgent.TopFractions | api/src/agents/vision_agent.py:139 | one fraction for each of the first three dominant colours, or for all of them when there are fewer |
| VisionAgent.AssessImageQuality | api/src/agents/vision_agent.py:119-150 | 7 less 2 for blur and 1 for a dark image (top three pixel fractions summing below 0.3), so in [4, 7]; 7 exactly without issues; each issue reported exactly when its condition holds, paired with its suggestion |
| VisionAgent.ExtractProductDetails | api/src/agents/vision_agent.py:49-72 | the category from the answer's category text (default "other"), the condition from its score, confidence default 0.8; with product details, the name, description, features and materials are the given ones or their defaults and brand, model and colour are copied; without them the name is "Unknown Product" and the rest empty |
| VisionAgent.EmptyAnswerDefaults | api/src/agents/vision_agent.py:61-72 | an empty answer gives an unknown product of category other, very good condition and confidence 0.8 |
| VisionAgent.DefaultsPassIdentification | api/src/models/product.py:41-71 | those defaults pass the product identification's validation |
| Detections.Names | api/src/services/vision_service.py:213 | the labels' names, one per label, in order; the Azure insights take the brands' names the same way |
| Detections.Scores | api/src/services/vision_service.py:238-243 | the items' scores, one per item, in order |
| VisionService.GatherAppend | api/src/services/vision_service.py:196-226 | gathering over two result lists is the concatenation of gathering over each |
| VisionService.GatherSkips | api/src/services/vision_service.py:197-203 | a failed result contributes nothing |
| VisionService.GatherFrom | api/src/services/vision_service.py:196-226 | everything gathered comes from some successful result |
| VisionService.LongestIndex | api/src/services/vision_service.py:230 | the first of the longest captions |
| VisionService.Take | api/src/services/vision_service.py:232 | a prefix of at most n elements, the whole list when it is no longer |
| VisionService.DescriptionIsLongestCaption | api/src/services/vision_service.py:229-232 | with captions, the description is the first longest caption, no caption being longer |
| VisionService.UpsertFacts | api/src/services/vision_service.py:254-255 | recording a label adds only that label and keeps names distinct |
| VisionService.UpsertLookup | api/src/services/vision_service.py:254-255 | after recording a label its score is the higher of the old and the new, other names unchanged |
| VisionService.DedupFacts | api/src/services/vision_service.py:249-255 | the unique labels have distinct non-empty names and come from the input |
| VisionService.BestScore | api/src/services/vision_service.py:254-255 | a name's best score is the highest among its labels, absent exactly when the name never occurs |
| VisionService.DedupKeepsBest | api/src/services/vision_service.py:249-255 | every non-empty label name keeps its highest score |
| VisionService.FailedResultsSkipped | api/src/services/vision_service.py:197-203 | a failed service result changes nothing in the combination |
| VisionService.ListsInResultOrder | api/src/services/vision_service.py:205-226 | services, labels, objects, text, brands and categories are concatenated in result order |
| VisionService.ConfidenceWithin | api/src/services/vision_service.py:234-248 | the confidence lies within any bounds that contain 0 and every label and tag score of the successful results |
| VisionService.IndexOf | api/src/services/vision_service.py:249-255 | a position of a member |
| VisionService.ScoreOfMember | api/src/services/vision_service.py:249-255 | with distinct names, a member's name looks up its score |
| VisionService.TwoPositions | api/src/services/vision_service.py:258-262 | an element at two positions occurs at least twice |
| VisionService.DistinctPermutation | api/src/services/vision_service.py:258-262 | a permutation of distinct names has distinct names |
| VisionService.TopFeaturesOrdered | api/src/services/vision_service.py:258-262 | the top features are at most ten distinct unique labels by descending score, all of them when there are at most ten |
| VisionService.TopFeaturesCut | api/src/services/vision_service.py:258-262 | a label cut from the top ten scores no more than any kept one |
| VisionService.DetectedFeatures | api/src/services/vision_service.py:249-262 | at most ten features by descending score, distinct non-empty names, each with its name's best score, none cut scoring above a kept one |
| VisionService.CollectAnswers | api/src/services/vision_service.py:196-226 | the first loop gathers exactly the services, labels, objects, text, brands, categories, label names and captions of the successful results |
| VisionService.CollectScores | api/src/services/vision_service.py:235-243 | the second loop gathers exactly the successful results' label and tag scores |
| VisionService.AssignLabels | api/src/services/vision_service.py:252-255 | the inner loop extends the unique labels by one result's labels |
| VisionService.UniqueLabels | api/src/services/vision_service.py:249-255 | the third loop computes exactly the unique labels |
| VisionService.CombineVisionResults | api/src/services/vision_service.py:179-264 | the loops compute exactly the combination whose properties are proved above |
| VisionService.Combine | api/src/services/vision_service.py:179-264 | at most ten detected features; no results give the empty combination with confidence 0 |
| MicrosoftVision.NormaliseAll | api/src/services/microsoft_vision_service.py:159-205 | one normalised entry per raw entry, in order, none without a list |
| MicrosoftVision.NormaliseKeepsComplete | api/src/services/microsoft_vision_service.py:163-204 | a complete entry keeps its name and score, and normalising is idempotent |
| MicrosoftVision.ProcessAnalysisResults | api/src/services/microsoft_vision_service.py:145-218 | each category, tag, object and brand is its input entry with the `.get` defaults, in order; the description and colours are present exactly when given, with their captions, tags, dominant colours, accent colour and black-and-white flag (default false) |
| MicrosoftVision.ProcessIdempotent | api/src/services/microsoft_vision_service.py:145-218 | processing an already processed analysis gives it back unchanged |
| MicrosoftVision.EmptyAnalysis | api/src/services/microsoft_vision_service.py:148-156 | an empty answer gives empty lists and no description or colours |
| MicrosoftVision.LineTexts | api/src/services/microsoft_vision_service.py:230-237 | one text per line of a page |
| MicrosoftVision.AllLineTextsCount | api/src/services/microsoft_vision_service.py:229-242 | there is one extracted text per line over all pages |
| MicrosoftVision.SpacedIsJoin | api/src/services/microsoft_vision_service.py:238 | appending each text and a space is the space-joined texts with a trailing space |
| MicrosoftVision.JoinSnoc | api/src/services/microsoft_vision_service.py:238 | joining one more part adds the separator and the part |
| MicrosoftVision.ProcessReadResults | api/src/services/microsoft_vision_service.py:220-243 | the loops extract every line's text in page order, the full text is their spaced concatenation stripped, and the count is the number of lines |
| MicrosoftVision.FullTextIsJoin | api/src/services/microsoft_vision_service.py:238-241 | the full text equals the stripped space-joined texts |
| MicrosoftVision.ProcessObjectDetection | api/src/services/microsoft_vision_service.py:245-260 | one normalised object per raw object, and their number |
| MicrosoftVision.NamesAbove | api/src/services/microsoft_vision_service.py:281-282 | every name kept belongs to an entry scoring above the threshold, and every such entry's name is kept |
| MicrosoftVision.NamesAboveAppend | api/src/services/microsoft_vision_service.py:281-282 | one entry gives its name exactly when it scores above the threshold, and the names of two runs are those of the first followed by those of the second, so order and repeats are kept |
| MicrosoftVision.ConditionTags | api/src/services/microsoft_vision_service.py:293-296 | every name kept belongs to a tag whose lower-cased name contains one of the six condition words, and every such tag's name is kept |
| MicrosoftVision.ConditionTagsAppend | api/src/services/microsoft_vision_service.py:293-296 | the names of two runs of tags are those of the first followed by those of the second, so order and repeats are kept |
| MicrosoftVision.ConditionTagsSingle | api/src/services/microsoft_vision_service.py:293-296 | one tag gives its name exactly when its lower-cased name contains a condition word |
| MicrosoftVision.GenerateProductInsights | api/src/services/microsoft_vision_service.py:262-303 | an error exactly when one of the three inputs failed; otherwise all brand names, the names of the categories above 0.5, the first five pattern matches, the condition tags and the names of the objects above 0.7, each list being the order-preserving filter characterised by the lemmas above |
| MicrosoftVision.ConditionMatchIgnoresCase | api/src/services/microsoft_vision_service.py:295 | a tag "Brand New" counts as a condition indicator |
| MicrosoftVision.ContainsSuffix | api/src/services/microsoft_vision_service.py:295 | a text contains each of its suffixes |
| Config.Find | api/src/config.py:182 | a dictionary lookup: nothing exactly when no entry has the key, otherwise a value stored under that key |
| Config.FindFirst | api/src/config.py:182 | the lookup returns the value of the first entry with the key |
| Config.MarketplaceFeesAreFractions | api/src/config.py:54-75 | every configured marketplace fee is a fraction in [0, 1] and every supported marketplace has one |
| Config.GetMarketplaceFee | api/src/config.py:180-182 | the fee is in [0, 1]; it is the configured fee of the lower-cased platform, or 10% when none is configured |
| Config.GetMarketplaceFeeIgnoresCase | api/src/config.py:182 | the platform name's case does not change the fee |
| Config.IsFeatureEnabled | api/src/config.py:185-194 | an unknown feature name is never enabled |
| Config.IsFeatureEnabledIgnoresCase | api/src/config.py:194 | the feature name's case does not change the answer |
| Config.DefaultFeatures | api/src/config.py:119-124 | with the default flags a feature is enabled exactly when it is one of the five known ones other than mock data |
| Config.TiersOrdered | api/src/config.py:87-116 | the tiers' monthly prices strictly increase, their analysis limits strictly increase and are positive before the last, and only enterprise is unlimited (negative limit) |
| Config.GetSubscriptionTier | api/src/config.py:197-199 | the lower-cased tier's configuration, or the free trial's for an unknown name; its limit is one of 2, 20, 50, 100 and -1 |
| Config.MissingKeys | api/src/config.py:170-174 | a key is reported missing exactly when it is required and absent or empty |
| Config.MissingKeysAppend | api/src/config.py:170-174 | one key is reported exactly when absent or empty, and the missing keys of two runs of keys are those of the first followed by those of the second, so order and repeats are kept |
| Config.CollectMissing | api/src/config.py:170-174 | the loop collects exactly the missing keys, in order |
| Config.ValidateApiKeys | api/src/config.py:157-177 | an error exactly when some required key is absent or empty, whose message lists the missing keys, comma-separated, in the required order |
| User.UsagePercentage | api/src/models/user.py:79-83 | 0 without a positive limit; never above 100 and never negative for non-negative use; within the limit, exactly the used share of the limit in percent |
| User.UsageShareBounds | api/src/models/user.py:83 | the raw share is below 100 exactly below the limit and at least 100 at or beyond it |
| User.CanAnalyze | api/src/models/user.py:85-87 | a negative (unlimited) limit always allows; otherwise allowed exactly while fewer analyses were used than the limit |
| User.RefusedMeansFullyUsed | api/src/models/user.py:79-87 | with a positive limit, a refused user's usage reads exactly 100% |
| User.AllowedMeansBelowFull | api/src/models/user.py:79-87 | with a positive limit, an allowed user's usage reads below 100% |
| Product.ParseCondition | api/src/models/product.py:7-13 | a parsed condition's value is the parsed string |
| Product.ConditionRoundTrip | api/src/models/product.py:7-13 | every condition parses back from its value |
| Product.ParseCategory | api/src/models/product.py:16-26 | a parsed category's value is the parsed string |
| Product.CategoryRoundTrip | api/src/models/product.py:16-26 | every category parses back from its value |
| Product.MakePriceRange | api/src/models/product.py:29-38 | accepted exactly when all three prices are non-negative and the maximum is not below the minimum; a rejection names exactly the failing fields |
| Product.EqualBoundsAccepted | api/src/models/product.py:34-38 | equal minimum and maximum are accepted ("greater than or equal") |
| Product.Get | api/src/models/product.py:29-32 | a keyword is absent exactly when no field carries its name |
| Product.PriceRangeFromKeywords | api/src/models/product.py:29-32 | without any of the three field names, all three are reported missing |
| Product.MakeIdentification | api/src/models/product.py:41-71 | accepted exactly when the name has 1 to 200 characters, the description at most 1000 and both confidences lie in [0, 1]; defaults are an empty description, condition good and confidences 0.8; a rejection names the name field exactly when the name's length is out of range |
| Product.MakeImageQualityScore | api/src/models/product.py:77 | accepted exactly within [0, 10], defaulting to 7 |
| Numbers.MinOf | api/src/agents/marketplace_agent.py:77 | Python's min of a non-empty list: a member not above any member |
| Numbers.MaxOf | api/src/agents/marketplace_agent.py:78 | Python's max of a non-empty list: a member not below any member |
| Numbers.MeanBetween | api/src/agents/marketplace_agent.py:76-78 | the mean of a non-empty list lies between its minimum and maximum |
| Numbers.Positives | api/src/agents/pricing_agent.py:69 | the kept values are the positive elements |
| Numbers.PositivesAppend | api/src/agents/pricing_agent.py:69 | one element is kept exactly when positive, and the positives of two runs are those of the first followed by those of the second, so order and repeats are kept |
| Numbers.Round2Properties | api/src/services/ebay_service.py:127-133 | rounding to two places is monotone, moves a value by at most half a cent and keeps it non-negative |
| Numbers.Round1Properties | api/src/agents/recommendation_agent.py:175-182 | rounding to one place is monotone, moves a value by at most 0.05 and keeps it non-negative |
| Numbers.TruncNonnegative | api/src/agents/recommendation_agent.py:405-418 | int() of a non-negative value is the greatest integer not above it |
| Numbers.TruncMonotone | api/src/agents/recommendation_agent.py:405-418 | int() is monotone on non-negative values |
| Numbers.Clamp | api/src/agents/vision_agent.py:146 | max(lo, min(hi, x)) lies in [lo, hi] and leaves a value already inside unchanged |
| Sorting.Insert | api/src/agents/recommendation_agent.py:437 | inserting adds exactly one element |
| Sorting.InsertSorted | api/src/agents/recommendation_agent.py:437 | inserting into a sorted list keeps it sorted |
| Sorting.SortBy | api/src/agents/recommendation_agent.py:437 | sorting by a key permutes the list |
| Sorting.SortBySorted | api/src/agents/recommendation_agent.py:437 | under a total preorder the result is sorted |
| Sorting.TiedWith | api/src/agents/recommendation_agent.py:437 | the elements tying with a value, in list order, each from the list |
| Sorting.InsertStable | api/src/agents/recommendation_agent.py:437 | inserting into a sorted list puts the new element after every element it ties with |
| Sorting.SortByStable | api/src/agents/recommendation_agent.py:437 | the sort is stable: the elements tying with any value come out in the order they went in |
| Sorting.FirstTied | api/src/agents/recommendation_agent.py:437 | the first element tying with a value sits at a position before which nothing ties with it |
| Sorting.SortAsc | api/src/agents/pricing_agent.py:69 | sorted() permutes the list |
| Sorting.SortAscMembers | api/src/agents/pricing_agent.py:69 | sorted() keeps exactly the same members |
| Sorting.OccursOnce | api/src/services/fee_service.py:352-364 | a list whose entries are pairwise different holds each value at most once (used for quotes of distinct platforms and for labels of distinct names) |
| Sorting.SortAscOrdered | api/src/agents/pricing_agent.py:69 | sorted() ascends |
| Stats.IndexMedianBetween | api/src/agents/marketplace_agent.py:79 | the element at index n // 2 of the sorted list lies between minimum and maximum |
| Stats.StatMedianBetween | api/src/agents/pricing_agent.py:78 | statistics.median lies between minimum and maximum |
| Stats.MedianConventionsDiffer | api/src/agents/pricing_agent.py:78 | on [1, 2] the indexed median is 2 and statistics.median 1.5 |
| Text.Lower | api/src/agents/vision_agent.py:93 | lower-casing maps each character and keeps the length |
| Text.LowerIdempotent | api/src/agents/vision_agent.py:93 | lower-casing twice is lower-casing once |
| Text.AnyOccursIn | api/src/services/microsoft_vision_service.py:295 | true exactly when one of the parts occurs in the text |
| Text.StripTrailingSpace | api/src/services/microsoft_vision_service.py:241 | a trailing space does not change the stripped text |

## Left out

- Network and async clients: every HTTP call, the Azure polling loop, Gemini, the Google and Azure vision SDK clients, eBay search with its XML parsing, Google Shopping searches and the eBay OAuth. Their answers are inputs to the model.
- `asyncio.gather` and its `return_exceptions`: a failed service call is an input marked as failed (`Outcome.Raised`, `ServiceResult` without an answer).
- CrewAI and LangChain orchestration: `crew.py`, `tools.py`, the `get_tools` wrappers and the pricing and vision agents' `_run`. `RecommendationAgent.Run` and `MarketplaceAgent.Run` are kept because they hold the loops that fill the result tables.
- Routers, `main.py`, `dependencies.py` (including the Redis rate limiter), the cache service and Stripe code: web framework and external stores.
- `_mock_marketplace_analysis` and `get_market_trends` in the marketplace service: they are driven by `random`. Only the deterministic `_generate_trend_recommendation` is modelled.
- The clock: research timestamps and query times are not modelled.
- Logging: the `logger.warning` calls when a platform's fees fail in `compare_platforms` (`fee_service.py:362`) and when a vision result failed (`vision_service.py:198`, `vision_service.py:202`) have no effect on any result, and the other log calls sit in client set-up or network code that is left out.
- The fee calculator that the pricing agent calls is not part of this model. It is the function parameter `feeCalculator` of `PricingAgent.PricingFor` and `PricingAgent.CalculatePlatformPricing`.
- Floating point: amounts are exact reals. Python's `round` is modelled as half-up at one or two places, not as half-even on binary floats.
- Text produced for people is not modelled: pros, cons, tips, reasons, listing advice, the `platform_features` and `audience_insights` entries that `_extract_platform_features` and `_extract_audience_insights` build (`recommendation_agent.py:307-336`), and the float formatting inside messages. The recommendation summary keeps the structure, the chosen platforms and the category advice.
- The regular expression that finds model numbers in the Azure insights is the function parameter `modelPatterns`. Dafny checks only that at most five of its matches are kept, in order.
- The order of Python sets: `GoogleShopping.ListOf` lists the merchant and category sets in an order it chooses. It states only that the result holds each element once.
- Payloads copied through unchanged are not modelled: Azure category details, rectangles, object parents, line bounding boxes and words, colour details other than black-and-white, and image properties. `VisionAgent.ExtractProductDetails` does not model the unused `product_text` it builds.
- In `MicrosoftVision`, entries without a name or score get an empty name and a score of 0, as the `.get` defaults do. `VisionService` takes every label and tag with a name and a score; a label without a score, which Python leaves out of the average, is not modelled.
- `Text.Lower` folds ASCII letters only. Python's `str.lower` also folds other Unicode letters.
- Text.Strip: removes ASCII whitespace only. Python's `str.strip` also removes other Unicode whitespace.
- The pydantic schemas in `models/analysis.py` and `models/recommendation.py`: they are declarations without logic. `Product` models only the validators and field bounds of `PriceRange`, `ProductIdentification` and `ProductImage`.
- `ebay_service.py` declares `self` twice in `_calculate_average_sell_time` (line 199), which is a syntax error, so the module cannot be imported. The model gives the method's intended constant, 7 days (`EbayService.DefaultDaysToSell`).
- `marketplace_agent.py:52` calls the async `search_products` without `await`, so the eBay research as written receives a coroutine and fails. `MarketplaceAgent.Run` takes the search's result (items or an error) as its input.
- `marketplace_service.py:7` imports a `ProductListing` that `models/product.py` does not define, and line 8 imports a `MarketplaceAnalysis` that `models/analysis.py` does not define, so the module cannot be imported as written. Besides, `get_best_platforms_for_category` reads `price_range.median`, a field `PriceRange` does not have. The model passes the median in a `PriceBand`.

## Findings

| source | as written | input that shows it | evidently intended | confidence | as-written member | corrected member |
|---|---|---|---|---|---|---|
| api/src/services/marketplace_service.py:80-84 | `PriceRange(low=…, median=…, high=…)` passes keywords that `models/product.py:29-32` does not declare, so validation always fails for missing `min_price`, `max_price` and `average_price` | completed listings with one positive price, e.g. [10.0] | a range with low = min, median = sorted[n // 2] and high = max of the positive prices | not executed | MarketplaceService.EbayPriceRangeAlwaysRejected | MarketplaceService.EbayPriceRange |
