/**
  Pricing: rate cards, their validation, the cost of a call, and the reservation that bounds it.
  Rates are whole rate units and costs whole cost units (see `Money`).
*/
module Pricing {
  import opened Outcomes
  import opened Money

  /** A configured price before conversion, as it arrives from a request body or a column. */
  datatype Raw = Absent | Boolean(b: bool) | Text(s: string) | NotFinite | Number(coeff: int, scale: nat)

  datatype RateSheet<T> = RateSheet(
    input: T, output: T, cacheWrite: T, cacheRead: T, image: T, imagePrices: map<string, T>)

  type RawCard = RateSheet<Raw>
  type RateCard = RateSheet<Option<int>>

  datatype Usage = Usage(
    prompt: nat, completion: nat, cacheWrite: nat, cacheRead: nat,
    images: nat, size: Option<string>, quality: Option<string>)

  function Tokens(prompt: nat, completion: nat, cacheWrite: nat, cacheRead: nat): Usage {
    Usage(prompt, completion, cacheWrite, cacheRead, 0, None, None)
  }

  // ---- Validation and conversion ----

  predicate ValidRate(r: Raw, optional: bool) {
    match r
    case Absent => optional
    case Number(coeff, _) => coeff >= 0
    case _ => false
  }

  predicate ValidCard(card: RawCard) {
    && ValidRate(card.input, true) && ValidRate(card.output, true)
    && ValidRate(card.cacheWrite, true) && ValidRate(card.cacheRead, true) && ValidRate(card.image, true)
    && forall k :: k in card.imagePrices ==> ValidRate(card.imagePrices[k], false)
  }

  predicate Numeric(r: Raw) { r.Absent? || r.Number? }

  predicate NumericCard(card: RawCard) {
    && Numeric(card.input) && Numeric(card.output) && Numeric(card.cacheWrite) && Numeric(card.cacheRead)
    && Numeric(card.image) && forall k :: k in card.imagePrices ==> Numeric(card.imagePrices[k])
  }

  function ToRate(r: Raw): Option<int>
    requires Numeric(r)
  {
    if r.Absent? then None else Some(Quantize(r.coeff, r.scale, RATE_SCALE))
  }

  function ToCard(card: RawCard): RateCard
    requires NumericCard(card)
  {
    RateSheet(
      ToRate(card.input), ToRate(card.output), ToRate(card.cacheWrite), ToRate(card.cacheRead), ToRate(card.image),
      map k | k in card.imagePrices && card.imagePrices[k].Number? :: ToRate(card.imagePrices[k]))
  }

  // ---- Cost ----

  function OrZero(rate: Option<int>): int { if rate.Some? then rate.value else 0 }

  function ImageKey(size: string, quality: string): string { size + "/" + quality }

  function ImagePrice(card: RateCard, size: Option<string>, quality: Option<string>): int {
    if size.Some? && quality.Some? && ImageKey(size.value, quality.value) in card.imagePrices
    then OrZero(card.imagePrices[ImageKey(size.value, quality.value)])
    else OrZero(card.image)
  }

  /** The charge before rounding, in rate units. */
  function Exact(usage: Usage, card: RateCard): int {
    usage.prompt * OrZero(card.input) + usage.completion * OrZero(card.output)
    + usage.cacheWrite * OrZero(card.cacheWrite) + usage.cacheRead * OrZero(card.cacheRead)
    + usage.images * ImagePrice(card, usage.size, usage.quality)
  }

  /** The charge, rounded once, in cost units. */
  function ComputeCost(usage: Usage, card: RateCard): int { RoundHalfUp(Exact(usage, card), UNIT) }

  // ---- No card that passes validation ever hands out a credit ----

  predicate NoNegativeRate(card: RateCard) {
    && OrZero(card.input) >= 0 && OrZero(card.output) >= 0 && OrZero(card.cacheWrite) >= 0
    && OrZero(card.cacheRead) >= 0 && OrZero(card.image) >= 0
  }

  /** Prices no call can look up, those without a slash in their key, do not matter. */
  predicate NoNegativeImagePrice(card: RateCard) {
    forall k :: k in card.imagePrices && '/' in k ==> OrZero(card.imagePrices[k]) >= 0
  }

  ghost predicate NeverCredits(card: RateCard) { forall usage: Usage :: ComputeCost(usage, card) >= 0 }

  lemma Product(n: nat, rate: int)
    ensures rate >= 0 ==> n * rate >= 0
  {
  }

  lemma ExactIsNonNegative(usage: Usage, card: RateCard)
    requires NoNegativeRate(card) && NoNegativeImagePrice(card)
    ensures Exact(usage, card) >= 0 && ComputeCost(usage, card) >= 0
  {
    hide RoundHalfUp;
    Product(usage.prompt, OrZero(card.input));
    Product(usage.completion, OrZero(card.output));
    Product(usage.cacheWrite, OrZero(card.cacheWrite));
    Product(usage.cacheRead, OrZero(card.cacheRead));
    if usage.size.Some? && usage.quality.Some? {
      var k := ImageKey(usage.size.value, usage.quality.value);
      assert k[|usage.size.value|] == '/';
    }
    Product(usage.images, ImagePrice(card, usage.size, usage.quality));
    RoundingIsMonotone(0, Exact(usage, card), UNIT);
    RoundingKeepsMultiples(0, UNIT);
  }

  lemma CostOfOneUnit(rate: int, card: RateCard, usage: Usage)
    requires Exact(usage, card) == UNIT * rate
    ensures ComputeCost(usage, card) == rate
  {
    RoundingKeepsMultiples(rate, UNIT);
  }

  /** The witnesses: ten thousand units of one dimension cost exactly that dimension's rate. */
  lemma OneDimension(card: RateCard)
    ensures ComputeCost(Tokens(UNIT, 0, 0, 0), card) == OrZero(card.input)
    ensures ComputeCost(Tokens(0, UNIT, 0, 0), card) == OrZero(card.output)
    ensures ComputeCost(Tokens(0, 0, UNIT, 0), card) == OrZero(card.cacheWrite)
    ensures ComputeCost(Tokens(0, 0, 0, UNIT), card) == OrZero(card.cacheRead)
    ensures ComputeCost(Usage(0, 0, 0, 0, UNIT, None, None), card) == OrZero(card.image)
  {
    hide RoundHalfUp, ComputeCost;
    CostOfOneUnit(OrZero(card.input), card, Tokens(UNIT, 0, 0, 0));
    CostOfOneUnit(OrZero(card.output), card, Tokens(0, UNIT, 0, 0));
    CostOfOneUnit(OrZero(card.cacheWrite), card, Tokens(0, 0, UNIT, 0));
    CostOfOneUnit(OrZero(card.cacheRead), card, Tokens(0, 0, 0, UNIT));
    CostOfOneUnit(OrZero(card.image), card, Usage(0, 0, 0, 0, UNIT, None, None));
  }

  lemma OneImagePrice(card: RateCard, key: string, slash: nat)
    requires key in card.imagePrices && slash < |key| && key[slash] == '/'
    ensures ComputeCost(Usage(0, 0, 0, 0, UNIT, Some(key[..slash]), Some(key[slash + 1..])), card)
            == OrZero(card.imagePrices[key])
  {
    assert ImageKey(key[..slash], key[slash + 1..]) == key;
    CostOfOneUnit(OrZero(card.imagePrices[key]), card,
                  Usage(0, 0, 0, 0, UNIT, Some(key[..slash]), Some(key[slash + 1..])));
  }

  /** A converted card hands out no credit exactly when no price a call can reach is negative. */
  lemma NeverCreditsIff(card: RateCard)
    ensures NeverCredits(card) <==> NoNegativeRate(card) && NoNegativeImagePrice(card)
  {
    hide ComputeCost, Exact;
    if NoNegativeRate(card) && NoNegativeImagePrice(card) {
      forall usage: Usage ensures ComputeCost(usage, card) >= 0 { ExactIsNonNegative(usage, card); }
    }
    if NeverCredits(card) {
      OneDimension(card);
      forall k | k in card.imagePrices && '/' in k ensures OrZero(card.imagePrices[k]) >= 0 {
        var slash :| 0 <= slash < |k| && k[slash] == '/';
        OneImagePrice(card, k, slash);
      }
    }
  }

  /** What validation of the raw values is for. */
  lemma ValidatedNeverCredits(card: RawCard)
    requires ValidCard(card)
    ensures NumericCard(card) && NeverCredits(ToCard(card))
    ensures ToCard(card).imagePrices.Keys == card.imagePrices.Keys
  {
    hide Quantize;
    NeverCreditsIff(ToCard(card));
    forall r: Raw | ValidRate(r, true) ensures OrZero(ToRate(r)) >= 0 {
      if r.Number? { QuantizeSign(r.coeff, r.scale, RATE_SCALE); }
    }
    forall r: Raw | ValidRate(r, false) ensures OrZero(ToRate(r)) >= 0 {
      QuantizeSign(r.coeff, r.scale, RATE_SCALE);
    }
  }

  datatype Dimension = InputRate | OutputRate | CacheWriteRate | CacheReadRate | ImageRate | ImagePriceAt(key: string)

  function RawAt(card: RawCard, d: Dimension): Raw
    requires d.ImagePriceAt? ==> d.key in card.imagePrices
  {
    match d
    case InputRate => card.input
    case OutputRate => card.output
    case CacheWriteRate => card.cacheWrite
    case CacheReadRate => card.cacheRead
    case ImageRate => card.image
    case ImagePriceAt(key) => card.imagePrices[key]
  }

  /** And what it refuses would: a negative price, of any dimension, that survives conversion and can be looked up, costs credit. */
  lemma RefusedRateCredits(card: RawCard, d: Dimension)
    requires NumericCard(card) && (d.ImagePriceAt? ==> d.key in card.imagePrices && '/' in d.key)
    requires RawAt(card, d).Number? && Quantize(RawAt(card, d).coeff, RawAt(card, d).scale, RATE_SCALE) < 0
    ensures !ValidCard(card) && !NeverCredits(ToCard(card))
  {
    hide Quantize, NeverCredits;
    QuantizeSign(RawAt(card, d).coeff, RawAt(card, d).scale, RATE_SCALE);
    NeverCreditsIff(ToCard(card));
    if d.ImagePriceAt? { assert OrZero(ToCard(card).imagePrices[d.key]) < 0; }
  }

  /** A card is accepted exactly when each price of it is a number not below zero; all but the image prices may be absent. */
  lemma AcceptedIff(card: RawCard)
    ensures ValidCard(card) <==>
              forall d: Dimension :: (d.ImagePriceAt? ==> d.key in card.imagePrices) ==>
                (RawAt(card, d).Absent? && !d.ImagePriceAt?) || (RawAt(card, d).Number? && RawAt(card, d).coeff >= 0)
  {
    if forall d: Dimension :: (d.ImagePriceAt? ==> d.key in card.imagePrices) ==>
         (RawAt(card, d).Absent? && !d.ImagePriceAt?) || (RawAt(card, d).Number? && RawAt(card, d).coeff >= 0)
    {
      assert RawAt(card, InputRate) == card.input && RawAt(card, OutputRate) == card.output;
      assert RawAt(card, CacheWriteRate) == card.cacheWrite && RawAt(card, CacheReadRate) == card.cacheRead;
      assert RawAt(card, ImageRate) == card.image;
      forall k | k in card.imagePrices ensures ValidRate(card.imagePrices[k], false) {
        assert RawAt(card, ImagePriceAt(k)) == card.imagePrices[k];
      }
    }
  }

  /** Ten thousand units of one dimension, and of no other. */
  function Units(d: Dimension, slash: nat): Usage
    requires d.ImagePriceAt? ==> slash < |d.key|
  {
    match d
    case InputRate => Tokens(UNIT, 0, 0, 0)
    case OutputRate => Tokens(0, UNIT, 0, 0)
    case CacheWriteRate => Tokens(0, 0, UNIT, 0)
    case CacheReadRate => Tokens(0, 0, 0, UNIT)
    case ImageRate => Usage(0, 0, 0, 0, UNIT, None, None)
    case ImagePriceAt(key) => Usage(0, 0, 0, 0, UNIT, Some(key[..slash]), Some(key[slash + 1..]))
  }

  /** Each configured price is the price of its own dimension: ten thousand units cost it at rate scale, or nothing if absent. */
  lemma PriceOfEachDimension(card: RawCard, d: Dimension, slash: nat)
    requires NumericCard(card)
    requires d.ImagePriceAt? ==> d.key in card.imagePrices && slash < |d.key| && d.key[slash] == '/' && RawAt(card, d).Number?
    ensures ComputeCost(Units(d, slash), ToCard(card)) ==
              if RawAt(card, d).Number? then Quantize(RawAt(card, d).coeff, RawAt(card, d).scale, RATE_SCALE) else 0
  {
    hide Quantize, ComputeCost, Exact;
    if d.ImagePriceAt? { OneImagePrice(ToCard(card), d.key, slash); } else { OneDimension(ToCard(card)); }
  }

  /** An image of a size and quality without a price of its own costs the card's image rate. */
  lemma UnlistedImagesCostTheRate(card: RateCard, images: nat, size: string, quality: string)
    requires size + "/" + quality !in card.imagePrices
    ensures Exact(Usage(0, 0, 0, 0, images, Some(size), Some(quality)), card) == Exact(Usage(0, 0, 0, 0, images, None, None), card)
  {
  }

  /** Before rounding, charges add up. */
  lemma ExactAdds(u: Usage, v: Usage, card: RateCard)
    requires u.size == v.size && u.quality == v.quality
    ensures Exact(u, card) + Exact(v, card) ==
              Exact(Usage(u.prompt + v.prompt, u.completion + v.completion, u.cacheWrite + v.cacheWrite,
                          u.cacheRead + v.cacheRead, u.images + v.images, u.size, u.quality), card)
  {
    Distributes(u.prompt, v.prompt, OrZero(card.input));
    Distributes(u.completion, v.completion, OrZero(card.output));
    Distributes(u.cacheWrite, v.cacheWrite, OrZero(card.cacheWrite));
    Distributes(u.cacheRead, v.cacheRead, OrZero(card.cacheRead));
    Distributes(u.images, v.images, ImagePrice(card, u.size, u.quality));
    hide ImagePrice;
  }

  lemma Distributes(m: int, n: int, rate: int)
    ensures (m + n) * rate == m * rate + n * rate
  {
  }

  // ---- The reservation bounds the settlement ----

  function WorstCasePrompt(prompt: nat, output: nat, card: RateCard): Usage {
    var input, write, read := OrZero(card.input), OrZero(card.cacheWrite), OrZero(card.cacheRead);
    if write > input && write >= read then Tokens(0, output, prompt, 0)
    else if read > input then Tokens(0, output, 0, prompt)
    else Tokens(prompt, output, 0, 0)
  }

  /** A token settlement that stayed within what admission estimated. */
  predicate Within(usage: Usage, prompt: nat, output: nat) {
    usage.prompt + usage.cacheWrite + usage.cacheRead <= prompt && usage.completion <= output && usage.images == 0
  }

  lemma ProductMonotone(m: nat, n: nat, rate: int, cap: int)
    requires m <= n && 0 <= cap && rate <= cap
    ensures m * rate <= n * cap
  {
    assert m * rate <= m * cap;
    assert m * cap <= n * cap;
  }

  /** Three shares of a prompt, each priced at or below the cap, cost no more than the whole at the cap. */
  lemma SharesBelowCap(a: nat, b: nat, c: nat, x: int, y: int, z: int, cap: int)
    requires x <= cap && y <= cap && z <= cap
    ensures a * x + b * y + c * z <= (a + b + c) * cap
  {
    assert a * x <= a * cap && b * y <= b * cap && c * z <= c * cap;
    assert (a + b + c) * cap == a * cap + b * cap + c * cap;
  }

  /** The reservation is the largest settlement the estimates allow, and it is one of them. */
  lemma ReservationIsTheMaximum(usage: Usage, prompt: nat, output: nat, card: RateCard)
    requires NoNegativeRate(card) && NoNegativeImagePrice(card) && Within(usage, prompt, output)
    ensures Within(WorstCasePrompt(prompt, output, card), prompt, output)
    ensures ComputeCost(usage, card) <= ComputeCost(WorstCasePrompt(prompt, output, card), card)
  {
    hide RoundHalfUp, ImagePrice;
    var worst := WorstCasePrompt(prompt, output, card);
    var input, write, read := OrZero(card.input), OrZero(card.cacheWrite), OrZero(card.cacheRead);
    var cap := if worst.cacheWrite == prompt && write > input && write >= read then write
               else if read > input && !(write > input && write >= read) then read else input;
    assert Exact(worst, card) == prompt * cap + output * OrZero(card.output);
    SharesBelowCap(usage.prompt, usage.cacheWrite, usage.cacheRead, input, write, read, cap);
    ProductMonotone(usage.prompt + usage.cacheWrite + usage.cacheRead, prompt, cap, cap);
    ProductMonotone(usage.completion, output, OrZero(card.output), OrZero(card.output));
    RoundingIsMonotone(Exact(usage, card), Exact(worst, card), UNIT);
  }

  lemma FewerImagesCostLess(returned: nat, requested: nat, size: Option<string>, quality: Option<string>, card: RateCard)
    requires NoNegativeRate(card) && NoNegativeImagePrice(card) && returned <= requested
    ensures ComputeCost(Usage(0, 0, 0, 0, returned, size, quality), card)
            <= ComputeCost(Usage(0, 0, 0, 0, requested, size, quality), card)
  {
    hide RoundHalfUp;
    var price := ImagePrice(card, size, quality);
    if size.Some? && quality.Some? {
      assert ImageKey(size.value, quality.value)[|size.value|] == '/';
    }
    ProductMonotone(returned, requested, price, price);
    RoundingIsMonotone(returned * price, requested * price, UNIT);
  }

  /** The parts of a sanitized request admission prices; None stands for a missing or non-integer field. */
  datatype Request = Request(
    chars: nat, n: Option<int>, maxTokens: Option<int>, maxCompletionTokens: Option<int>, maxOutputTokens: Option<int>,
    size: Option<string>, quality: Option<string>)

  function EstimateTokens(chars: nat): (t: nat)
    ensures 4 * t >= chars && 4 * t < chars + 4
  {
    (chars + 3) / 4
  }

  function Choices(r: Request): (n: nat)
    ensures n >= 1
  {
    if r.n.Some? && r.n.value > 0 then r.n.value else 1
  }

  function MaxOutput(r: Request): nat {
    if r.maxTokens.Some? && r.maxTokens.value > 0 then r.maxTokens.value
    else if r.maxCompletionTokens.Some? && r.maxCompletionTokens.value > 0 then r.maxCompletionTokens.value
    else if r.maxOutputTokens.Some? && r.maxOutputTokens.value > 0 then r.maxOutputTokens.value
    else 0
  }

  function ReservationCost(isImage: bool, r: Request, card: RateCard): int {
    if isImage then ComputeCost(Usage(0, 0, 0, 0, Choices(r), r.size, r.quality), card)
    else ComputeCost(WorstCasePrompt(EstimateTokens(r.chars), MaxOutput(r) * Choices(r), card), card)
  }

  /** Settlement never exceeds the reservation while the provider stays within the request's own limits. */
  lemma ReservationDominates(isImage: bool, r: Request, card: RateCard, usage: Usage)
    requires NoNegativeRate(card) && NoNegativeImagePrice(card)
    requires !isImage ==> Within(usage, EstimateTokens(r.chars), MaxOutput(r) * Choices(r))
    requires isImage ==> usage == Usage(0, 0, 0, 0, usage.images, r.size, r.quality) && usage.images <= Choices(r)
    ensures 0 <= ComputeCost(usage, card) <= ReservationCost(isImage, r, card)
  {
    hide ComputeCost, Exact;
    ExactIsNonNegative(usage, card);
    if isImage { FewerImagesCostLess(usage.images, Choices(r), r.size, r.quality, card); }
    else { ReservationIsTheMaximum(usage, EstimateTokens(r.chars), MaxOutput(r) * Choices(r), card); }
  }

  /** The first of the request's ceilings that is positive; nothing if none is. */
  predicate FirstCeiling(r: Request, m: nat) {
    var given := [r.maxTokens, r.maxCompletionTokens, r.maxOutputTokens];
    || (m == 0 && forall i :: 0 <= i < 3 ==> given[i].None? || given[i].value <= 0)
    || (m > 0 && exists i :: 0 <= i < 3 && given[i] == Some(m) && forall j :: 0 <= j < i ==> given[j].None? || given[j].value <= 0)
  }

  /** What a provider may bill for a text request: a prompt of its estimate, and for each choice the ceiling. */
  predicate Honours(r: Request, usage: Usage, m: nat, n: nat) {
    && 4 * (usage.prompt + usage.cacheWrite + usage.cacheRead) < r.chars + 4
    && usage.completion <= m * n && usage.images == 0
  }

  /**
    On the request's own fields: with n choices asked for (one unless a positive number is given) and m
    tokens allowed for each, the reservation is the most any provider that honours them can bill.
  */
  lemma ReservationIsForTheRequest(r: Request, card: RateCard, m: nat, n: nat) returns (worst: Usage)
    requires NoNegativeRate(card) && NoNegativeImagePrice(card) && FirstCeiling(r, m)
    requires n >= 1 && (if r.n.Some? && r.n.value > 0 then r.n == Some(n) else n == 1)
    ensures Honours(r, worst, m, n) && ComputeCost(worst, card) == ReservationCost(false, r, card)
    ensures forall usage: Usage :: Honours(r, usage, m, n) ==> 0 <= ComputeCost(usage, card) <= ReservationCost(false, r, card)
  {
    CeilingIs(r, m);
    worst := WorstCasePrompt(EstimateTokens(r.chars), MaxOutput(r) * Choices(r), card);
    hide ComputeCost, MaxOutput, FirstCeiling, NoNegativeRate, NoNegativeImagePrice;
    forall usage: Usage | Honours(r, usage, m, n) ensures 0 <= ComputeCost(usage, card) <= ReservationCost(false, r, card) {
      ReservationDominates(false, r, card, usage);
    }
  }

  lemma CeilingIs(r: Request, m: nat)
    requires FirstCeiling(r, m)
    ensures MaxOutput(r) == m
  {
    var given := [r.maxTokens, r.maxCompletionTokens, r.maxOutputTokens];
    assert given[0] == r.maxTokens && given[1] == r.maxCompletionTokens && given[2] == r.maxOutputTokens;
  }

  /** And for images, the most that can be billed for as many as it asks for. */
  lemma ImageReservationIsForTheRequest(r: Request, card: RateCard, n: nat)
    requires NoNegativeRate(card) && NoNegativeImagePrice(card)
    requires n >= 1 && (if r.n.Some? && r.n.value > 0 then r.n == Some(n) else n == 1)
    ensures ComputeCost(Usage(0, 0, 0, 0, n, r.size, r.quality), card) == ReservationCost(true, r, card)
    ensures forall k: nat :: k <= n ==> 0 <= ComputeCost(Usage(0, 0, 0, 0, k, r.size, r.quality), card) <= ReservationCost(true, r, card)
  {
    hide ComputeCost, NoNegativeRate, NoNegativeImagePrice;
    forall k: nat | k <= n ensures 0 <= ComputeCost(Usage(0, 0, 0, 0, k, r.size, r.quality), card) <= ReservationCost(true, r, card) {
      ReservationDominates(true, r, card, Usage(0, 0, 0, 0, k, r.size, r.quality));
    }
  }

  // ---- A ledger of rounded charges ----

  datatype Event = Event(usage: Usage, card: RateCard)

  function Charged(events: seq<Event>): int {
    if events == [] then 0
    else Charged(events[..|events| - 1]) + ComputeCost(events[|events| - 1].usage, events[|events| - 1].card)
  }

  function Owed(events: seq<Event>): int {
    if events == [] then 0
    else Owed(events[..|events| - 1]) + Exact(events[|events| - 1].usage, events[|events| - 1].card)
  }

  /** A ledger of n events is off by at most n half cost units, whatever their order. */
  lemma {:induction false} LedgerDrift(events: seq<Event>)
    ensures 2 * Abs(UNIT * Charged(events) - Owed(events)) <= |events| * UNIT
  {
    hide Exact, RoundHalfUp;
    if events != [] {
      var rest, last := events[..|events| - 1], events[|events| - 1];
      LedgerDrift(rest);
      RoundsToNearest(Exact(last.usage, last.card), UNIT);
    }
  }
}
