/** dynamic_soc_manager.py: at 01:01 set the battery's state-of-charge
    limits from today's low-versus-high price difference, and the full range
    every Sunday for cell balancing. */
module SocManager {
  import opened Prices

  /** `input_number.set_sg_min_soc` and `input_number.set_sg_max_soc`, in percent. */
  datatype SocLimits = SocLimits(min: nat, max: nat)

  /** Python's `weekday()` numbering: 0 is Monday, 6 is Sunday. */
  const Sunday: nat := 6

  /** The price difference up to which the narrow range is used (line 44). */
  const NarrowUpTo: real := 75.0

  /** `adjust_soc_based_on_prices`, `weekday` standing for
      `datetime.now().weekday()`; None: the price does not parse and nothing
      is written. */
  function AdjustSoc(price: Reading, weekday: nat): (r: Option<SocLimits>)
    requires weekday < 7
    ensures r.None? <==> AsFloat(price).None?
    ensures r.Some? ==> 1 <= r.value.min < r.value.max <= 100
  {
    match AsFloat(price)
    case None => None
    case Some(p) =>
      if weekday == Sunday then Some(SocLimits(1, 100))
      else if p <= NarrowUpTo then Some(SocLimits(5, 98))
      else Some(SocLimits(1, 99))
  }

  /** Sunday gives 1-100 whatever the price; the other days give 5-98 up to
      a difference of 75 and 1-99 above it. */
  lemma SocRule(price: Reading, weekday: nat)
    requires weekday < 7 && AsFloat(price).Some?
    ensures weekday == Sunday ==> AdjustSoc(price, weekday) == Some(SocLimits(1, 100))
    ensures weekday != Sunday ==>
      (AdjustSoc(price, weekday) == Some(SocLimits(5, 98)) <==> AsFloat(price).value <= NarrowUpTo)
    ensures weekday != Sunday ==>
      (AdjustSoc(price, weekday) == Some(SocLimits(1, 99)) <==> AsFloat(price).value > NarrowUpTo)
  {
  }

  /** On the same weekday a larger price difference never narrows the range:
      the minimum does not rise and the maximum does not fall. */
  lemma SocWidensWithDifference(p: real, q: real, weekday: nat)
    requires weekday < 7 && p <= q
    ensures AdjustSoc(Number(q), weekday).value.min <= AdjustSoc(Number(p), weekday).value.min
    ensures AdjustSoc(Number(p), weekday).value.max <= AdjustSoc(Number(q), weekday).value.max
  {
  }
}
