/**
 * The output file names of the event generators, built from the seed
 * location, the energy and the particle name. Integers are rendered in
 * decimal as Python's `%i` and `str` do for ints.
 */
module FileNames {

  predicate IsDigit(c: char)
  {
    '0' <= c <= '9'
  }

  predicate AllDigits(s: string)
  {
    forall k :: 0 <= k < |s| ==> IsDigit(s[k])
  }

  function DigitChar(d: nat): (c: char)
    requires d < 10
    ensures IsDigit(c) && c as int - '0' as int == d
  {
    ('0' as int + d) as char
  }

  /** The decimal digits of `n`, most significant first, with no leading zero. */
  function Digits(n: nat): (s: string)
    ensures |s| >= 1 && AllDigits(s)
    ensures s[0] == '0' ==> n == 0
  {
    if n < 10 then [DigitChar(n)] else Digits(n / 10) + [DigitChar(n % 10)]
  }

  /** The number a string of decimal digits denotes. */
  function DigitsValue(s: string): nat
    requires AllDigits(s)
  {
    if s == [] then 0 else DigitsValue(s[..|s| - 1]) * 10 + (s[|s| - 1] as int - '0' as int)
  }

  /** Reading back the digits of `n` gives `n`. */
  lemma {:induction false} DigitsRoundTrip(n: nat)
    ensures DigitsValue(Digits(n)) == n
    decreases n
  {
    if n >= 10 {
      DigitsRoundTrip(n / 10);
      var s := Digits(n);
      assert s[..|s| - 1] == Digits(n / 10);
    }
  }

  /** Different numbers have different digits. */
  lemma DigitsInjective(a: nat, b: nat)
    requires Digits(a) == Digits(b)
    ensures a == b
  {
    DigitsRoundTrip(a);
    DigitsRoundTrip(b);
  }

  /** `str(n)` / `'%i' % n` for an int. */
  function Decimal(n: int): string
  {
    if n < 0 then "-" + Digits(-n) else Digits(n)
  }

  /** `'r%i-%i' % (i_r, o_r)`: the seed-location tag. */
  function SeedLocation(iR: int, oR: int): (s: string)
    ensures |s| == |Decimal(iR)| + |Decimal(oR)| + 2
    ensures s[0] == 'r' && s[|Decimal(iR)| + 1] == '-'
    ensures s[1..|Decimal(iR)| + 1] == Decimal(iR) && s[|Decimal(iR)| + 2..] == Decimal(oR)
  {
    "r" + Decimal(iR) + "-" + Decimal(oR)
  }

  /** Seed locations with non-negative radii have distinct tags. */
  lemma SeedLocationInjective(iR1: nat, oR1: nat, iR2: nat, oR2: nat)
    requires SeedLocation(iR1, oR1) == SeedLocation(iR2, oR2)
    ensures iR1 == iR2 && oR1 == oR2
  {
    var s := SeedLocation(iR1, oR1);
    var d1, d2 := Decimal(iR1), Decimal(iR2);
    // Both tags have '-' right after the inner radius, and digits never are '-'.
    assert |d1| == |d2|;
    DigitsInjective(iR1, iR2);
    DigitsInjective(oR1, oR2);
  }

  /** The part both names share before the energy: `dir + seed_loc + '_'`. */
  function NamePrefix(dir: string, iR: int, oR: int): string
  {
    dir + SeedLocation(iR, oR) + "_"
  }

  /** `generate_events`' summary file: `dir + seed_loc + '_' + str(energy) + '_' + particle + '_' + 'sim' + '.h5'`. */
  function SummaryFileName(dir: string, iR: int, oR: int, energy: nat, particle: string): (name: string)
    ensures |name| > |dir| + 3
    ensures name[..|dir|] == dir && name[|dir|..|dir| + 1] == "r"
    ensures name[|name| - 3..] == ".h5"
  {
    NamePrefix(dir, iR, oR) + Decimal(energy) + ("_" + particle + "_" + "sim" + ".h5")
  }

  /** `gen_ev`'s file: like the summary name, but with no separator between the energy and the particle. */
  function MuonFileName(dir: string, iR: int, oR: int, energy: nat, particle: string): (name: string)
    ensures |name| > |dir| + 3
    ensures name[..|dir|] == dir && name[|dir|..|dir| + 1] == "r"
    ensures name[|name| - 3..] == ".h5"
  {
    NamePrefix(dir, iR, oR) + Decimal(energy) + (particle + "_" + "sim.h5")
  }

  lemma SummaryExample()
    ensures SummaryFileName("data/", 0, 1, 50, "e-") == "data/r0-1_50_e-_sim.h5"
  {
    assert Decimal(50) == "50" by {
      assert Digits(50) == Digits(5) + [DigitChar(0)];
    }
    assert NamePrefix("data/", 0, 1) == "data/r0-1_";
  }

  lemma MuonExample()
    ensures MuonFileName("data/", 3, 4, 2, "neutron") == "data/r3-4_2neutron_sim.h5"
  {
    assert NamePrefix("data/", 3, 4) == "data/r3-4_";
  }

  /** Two strings framed by the same prefix and suffix are equal only if they are the same. */
  lemma FramedEqual(h: string, d1: string, d2: string, t: string)
    requires h + d1 + t == h + d2 + t
    ensures d1 == d2
  {
    assert (h + d1 + t)[|h|..|h| + |d1|] == d1;
    assert (h + d2 + t)[|h|..|h| + |d2|] == d2;
  }

  /**
   * Runs of `generate_events` in the same directory, seed location and
   * particle write the same summary file exactly when their energies agree.
   */
  lemma SummaryNameInjective(dir: string, iR: int, oR: int, e1: nat, e2: nat, particle: string)
    ensures SummaryFileName(dir, iR, oR, e1, particle) == SummaryFileName(dir, iR, oR, e2, particle) <==> e1 == e2
  {
    if SummaryFileName(dir, iR, oR, e1, particle) == SummaryFileName(dir, iR, oR, e2, particle) {
      FramedEqual(NamePrefix(dir, iR, oR), Digits(e1), Digits(e2), "_" + particle + "_" + "sim" + ".h5");
      DigitsInjective(e1, e2);
    }
  }

  /** The same holds of `gen_ev`'s file names, despite the missing separator, for a fixed particle. */
  lemma MuonNameInjective(dir: string, iR: int, oR: int, e1: nat, e2: nat, particle: string)
    ensures MuonFileName(dir, iR, oR, e1, particle) == MuonFileName(dir, iR, oR, e2, particle) <==> e1 == e2
  {
    if MuonFileName(dir, iR, oR, e1, particle) == MuonFileName(dir, iR, oR, e2, particle) {
      FramedEqual(NamePrefix(dir, iR, oR), Digits(e1), Digits(e2), particle + "_" + "sim.h5");
      DigitsInjective(e1, e2);
    }
  }
}
