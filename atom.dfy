/**
 * The `Atom` page: the legend's neutron figure, set against the neutron count
 * the nucleus is actually built with.
 */
module Atom {
  import opened Nucleus

  /** The legend's "Neutrons:" figure: mass number minus the six protons. */
  function LegendNeutrons(isotope: int): int
  {
    isotope - 6
  }

  /**
   * The legend and the drawn nucleus agree exactly on the three isotopes the
   * selector offers; any other mass number is drawn as carbon-12 but labelled
   * with its own difference.
   */
  lemma LegendMatchesNucleus(isotope: int)
    ensures LegendNeutrons(isotope) == NeutronCount(isotope) <==> isotope in {12, 13, 14}
  {
  }
}
