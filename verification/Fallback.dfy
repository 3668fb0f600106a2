/** The model-free bid (cpp-bidder/src/fallback.h). */
module Fallback {
  import opened Types

  /** One ad auction (AdRequest); `rest` stands for the fields only the feature encoder reads. */
  datatype Request = Request(id: string, advertiser: string, impressionValue: real, rest: seq<int>)

  datatype Settings = Settings(defaultBid: real, shading: real, byAdvertiser: map<string, real>)

  function BidFor(f: Settings, req: Request, multiplier: real): Decision {
    var base := if req.advertiser in f.byAdvertiser then f.byAdvertiser[req.advertiser] else f.defaultBid;
    var bid := base * f.shading * multiplier;
    var floored := if bid < 0.0 then 0.0 else bid;
    var capped := if req.impressionValue > 0.0 && floored > req.impressionValue then req.impressionValue else floored;
    Decision(capped, 0.0, 0.0)
  }

  /** The advertiser's average price, or the default one, shaded and scaled by the strategy: never below zero, never
      above a positive impression value, and promising nothing. */
  lemma FallbackIsShadedAndCapped(f: Settings, req: Request, multiplier: real)
    ensures var d, v := BidFor(f, req, multiplier), req.impressionValue;
      && d.winProbability == 0.0 && d.expectedProfit == 0.0
      && d.bidPrice >= 0.0 && (v > 0.0 ==> d.bidPrice <= v)
      && forall base: real | Average(f, req.advertiser, base) ::
           var product := base * f.shading * multiplier;
           && (product <= 0.0 ==> d.bidPrice == 0.0)
           && (product > 0.0 && (v <= 0.0 || product <= v) ==> d.bidPrice == product)
           && (0.0 < v < product ==> d.bidPrice == v)
  {
  }

  /** What an advertiser's impressions cost on average, as far as it is known. */
  predicate Average(f: Settings, advertiser: string, base: real) {
    (advertiser in f.byAdvertiser && base == f.byAdvertiser[advertiser])
      || (advertiser !in f.byAdvertiser && base == f.defaultBid)
  }
}
