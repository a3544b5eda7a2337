/**
 * The four demand multipliers applied to a concert's base price. Both copies
 * of the engine use the same time, inventory and traffic bands; they differ
 * in the preference band and in the constants their parsers and reward use,
 * which `Variant` collects.
 */
module Multipliers {

  /** WebApp is the engine the web routes run; Experiment is the copy with the LLM prompt parser. */
  datatype Variant = WebApp | Experiment {
    /** Preferences below this cut get the 0.9 multiplier. */
    function PreferenceLowCut(): int {
      if WebApp? then 50 else 30
    }

    /** The preference the prompt parsers write for every concert they do not select. */
    function UnselectedPreference(): int {
      if WebApp? then 40 else 20
    }

    /** What the engine's reward takes off for a disliked concert (preference below 30). */
    function LowPreferencePenalty(): real {
      if WebApp? then 1.5 else 0.5
    }
  }

  /** More than a month out is cheaper; the last week is dearer. */
  function TimeMultiplier(daysBefore: int): (m: real)
    ensures m == 0.85 <==> daysBefore > 30
    ensures m == 1.0 <==> 7 <= daysBefore <= 30
    ensures m == 1.25 <==> daysBefore < 7
  {
    if daysBefore > 30 then 0.85
    else if daysBefore >= 7 then 1.0
    else 1.25
  }

  /** `(total - sold) / total`. */
  function RemainingRatio(sold: int, total: int): real
    requires total > 0
  {
    (total - sold) as real / total as real
  }

  /** Scarcity: over half left costs nothing extra, a fifth or less left costs the most. */
  function InventoryMultiplier(sold: int, total: int): (m: real)
    requires total > 0
    ensures m == 1.0 <==> RemainingRatio(sold, total) > 0.5
    ensures m == 1.15 <==> 0.2 < RemainingRatio(sold, total) <= 0.5
    ensures m == 1.35 <==> RemainingRatio(sold, total) <= 0.2
  {
    var ratio := RemainingRatio(sold, total);
    if ratio > 0.5 then 1.0
    else if ratio > 0.2 then 1.15
    else 1.35
  }

  function TrafficMultiplier(traffic: int): (m: real)
    ensures m == 0.95 <==> traffic < 30
    ensures m == 1.0 <==> 30 <= traffic < 70
    ensures m == 1.2 <==> traffic >= 70
  {
    if traffic < 30 then 0.95
    else if traffic < 70 then 1.0
    else 1.2
  }

  function PreferenceMultiplier(v: Variant, preference: int): (m: real)
    ensures m == 0.9 <==> preference < v.PreferenceLowCut()
    ensures m == 1.0 <==> v.PreferenceLowCut() <= preference < 70
    ensures m == 1.15 <==> preference >= 70
  {
    if preference < v.PreferenceLowCut() then 0.9
    else if preference < 70 then 1.0
    else 1.15
  }

  /** The price never falls as the event approaches. */
  lemma TimeMultiplierMonotone(d1: int, d2: int)
    requires d1 <= d2
    ensures TimeMultiplier(d2) <= TimeMultiplier(d1)
  {
  }

  /** Selling more tickets of a concert never lowers its inventory multiplier. */
  lemma InventoryMultiplierMonotone(s1: int, s2: int, total: int)
    requires total > 0 && s1 <= s2
    ensures InventoryMultiplier(s1, total) <= InventoryMultiplier(s2, total)
  {
    assert RemainingRatio(s1, total) - RemainingRatio(s2, total) == (s2 - s1) as real / total as real;
    assert RemainingRatio(s2, total) <= RemainingRatio(s1, total);
  }

  /** More traffic never lowers the price. */
  lemma TrafficMultiplierMonotone(t1: int, t2: int)
    requires t1 <= t2
    ensures TrafficMultiplier(t1) <= TrafficMultiplier(t2)
  {
  }

  /** A higher preference never lowers the price. */
  lemma PreferenceMultiplierMonotone(v: Variant, p1: int, p2: int)
    requires p1 <= p2
    ensures PreferenceMultiplier(v, p1) <= PreferenceMultiplier(v, p2)
  {
  }
}
