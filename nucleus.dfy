/**
 * The `Nucleus` component: how many nucleons a carbon isotope has, which of
 * them are protons, and where each one sits on the nucleus sphere.
 */
module Nucleus {
  import opened Maths

  /** Radius of the sphere the nucleon centres are placed on. */
  const NucleusRadius: real := 1.25
  const Protons: nat := 6
  const ProtonColor: string := "#FFD700"
  const NeutronColor: string := "#C0C0C0"

  /** One sphere of the nucleus: its colour tags it proton or neutron. */
  datatype Nucleon = Nucleon(color: string, position: Vec3)

  /**
   * The `switch (isotope)`: the neutron count of carbon-`isotope`. Carbon-12,
   * -13 and -14 get mass number minus six; every other value falls back to
   * carbon-12's six neutrons.
   */
  function NeutronCount(isotope: int): (n: nat)
    ensures isotope in {12, 13, 14} ==> n == isotope - Protons
    ensures isotope !in {12, 13, 14} ==> n == 6
  {
    match isotope
    case 13 => 7
    case 14 => 8
    case _ => 6
  }

  function TotalNucleons(isotope: int): (n: nat)
    ensures 12 <= n <= 14
    ensures n == isotope <==> isotope in {12, 13, 14}
  {
    Protons + NeutronCount(isotope)
  }

  /** Standard physics convention: polar angle from +z, azimuth in the xy-plane. */
  function SphericalToCartesian(m: MathLib, radius: real, polar: real, azimuthal: real): Vec3
  {
    Vec3(radius * m.sin(polar) * m.cos(azimuthal),
         radius * m.sin(polar) * m.sin(azimuthal),
         radius * m.cos(polar))
  }

  /** Every point produced by `SphericalToCartesian` lies on the sphere of that radius. */
  lemma SphericalOnSphere(m: MathLib, radius: real, polar: real, azimuthal: real)
    requires Pythagorean(m)
    ensures NormSq(SphericalToCartesian(m, radius, polar, azimuthal)) == radius * radius
  {
  }

  /** For 0 < k < 2n the quotient k/n lies strictly between 0 and 2. */
  lemma QuotientBelowTwo(k: real, n: real)
    requires 0.0 < k < 2.0 * n
    ensures 0.0 < k / n < 2.0
  {
    var q := k / n;
    assert q * n == k;
    assert q <= 0.0 ==> q * n <= 0.0;
    assert q >= 2.0 ==> (q - 2.0) * n >= 0.0;
  }

  /**
   * The argument of `Math.acos` for nucleon `i` of `n`: 1 − 2(i + 0.5)/n. It
   * always lies strictly inside acos's domain (−1, 1).
   */
  function AcosArgument(i: nat, n: nat): (a: real)
    requires i < n
    ensures -1.0 < a < 1.0
  {
    QuotientBelowTwo(2.0 * (i as real + 0.5), n as real);
    1.0 - (2.0 * (i as real + 0.5)) / (n as real)
  }

  /** Polar angle of nucleon `i` of `n`: `Math.acos` is only ever applied inside (−1, 1). */
  function Polar(m: MathLib, i: nat, n: nat): (polar: real)
    requires i < n
    ensures exists a :: -1.0 < a < 1.0 && polar == m.acos(a)
  {
    var a := AcosArgument(i, n);
    assert -1.0 < a < 1.0 && m.acos(a) == m.acos(a);
    m.acos(a)
  }

  /** Spiral sweep: azimuth = sqrt(n·π) · polar. */
  function Azimuthal(m: MathLib, i: nat, n: nat): real
    requires i < n
  {
    m.sqrt((n as real) * m.pi) * Polar(m, i, n)
  }

  /** Nucleon `i` of `n`: protons first, then neutrons, on the spiral point set. */
  function NucleonAt(m: MathLib, i: nat, n: nat): (nu: Nucleon)
    requires i < n
    ensures nu.color == ProtonColor <==> i < Protons
    ensures nu.color == NeutronColor <==> i >= Protons
    ensures Pythagorean(m) ==> NormSq(nu.position) == NucleusRadius * NucleusRadius
  {
    var position := SphericalToCartesian(m, NucleusRadius, Polar(m, i, n), Azimuthal(m, i, n));
    assert Pythagorean(m) ==> NormSq(position) == NucleusRadius * NucleusRadius by {
      if Pythagorean(m) {
        SphericalOnSphere(m, NucleusRadius, Polar(m, i, n), Azimuthal(m, i, n));
      }
    }
    assert ProtonColor != NeutronColor by { assert ProtonColor[1] != NeutronColor[1]; }
    if i < Protons then Nucleon(ProtonColor, position) else Nucleon(NeutronColor, position)
  }

  /** The whole nucleus of carbon-`isotope`, index by index. */
  ghost function Layout(m: MathLib, isotope: int): (ns: seq<Nucleon>)
    ensures |ns| == TotalNucleons(isotope)
  {
    var n := TotalNucleons(isotope);
    seq(n, i requires 0 <= i < n => NucleonAt(m, i, n))
  }

  /**
   * `getNucleons`: picks the neutron count, then pushes one nucleon per index,
   * tagging the first six as protons.
   */
  method GetNucleons(m: MathLib, isotope: int) returns (nucleons: seq<Nucleon>)
    ensures nucleons == Layout(m, isotope)
    ensures |nucleons| == Protons + NeutronCount(isotope)
    ensures forall i :: 0 <= i < |nucleons| ==> (nucleons[i].color == ProtonColor <==> i < Protons)
    ensures forall i :: 0 <= i < |nucleons| ==> (nucleons[i].color == NeutronColor <==> i >= Protons)
    ensures forall i :: 0 <= i < |nucleons| ==>
              nucleons[i].position ==
              SphericalToCartesian(m, NucleusRadius, Polar(m, i, |nucleons|), Azimuthal(m, i, |nucleons|))
    ensures Pythagorean(m) ==>
              forall i :: 0 <= i < |nucleons| ==>
                NormSq(nucleons[i].position) == NucleusRadius * NucleusRadius
  {
    var neutrons := NeutronCount(isotope);
    var totalNucleons := Protons + neutrons;
    nucleons := [];
    for i := 0 to totalNucleons
      invariant |nucleons| == i
      invariant forall j :: 0 <= j < i ==> nucleons[j] == NucleonAt(m, j, totalNucleons)
    {
      var polar := m.acos(1.0 - (2.0 * (i as real + 0.5)) / (totalNucleons as real));
      var azimuthal := m.sqrt((totalNucleons as real) * m.pi) * polar;
      var position := SphericalToCartesian(m, NucleusRadius, polar, azimuthal);
      assert polar == Polar(m, i, totalNucleons);
      assert azimuthal == Azimuthal(m, i, totalNucleons);
      if i < Protons {
        nucleons := nucleons + [Nucleon(ProtonColor, position)];
      } else {
        nucleons := nucleons + [Nucleon(NeutronColor, position)];
      }
    }
    forall i | 0 <= i < |nucleons|
      ensures nucleons[i] == Layout(m, isotope)[i]
    {
    }
  }

  /** Any mass number other than 13 or 14 builds exactly carbon-12's nucleus. */
  lemma UnknownIsotopeIsCarbon12(m: MathLib, isotope: int)
    requires isotope != 13 && isotope != 14
    ensures Layout(m, isotope) == Layout(m, 12)
  {
  }
}
