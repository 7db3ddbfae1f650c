/** The resource-deprivation engine: a ward's count of patients needing supplies
    today and its available dressings and catheters give two shortage
    percentages, their mean, a four-way severity band and an alert flag. Rates
    are exact reals; the returned rates are rounded to two decimals, while the
    band and the alert are decided on the unrounded mean.
 */
module ResourceDeprivation {
  import opened Rounding

  datatype DeprivationInput = DeprivationInput(
    wardId: string,
    patientsNeedingToday: nat,
    availableDressings: nat,
    availableCatheters: nat)

  datatype DeprivationBand = Safe | Shortage | MajorShortage | Critical

  datatype ResourceDeprivation = ResourceDeprivation(
    wardId: string,
    patientsNeedingToday: nat,
    availableDressings: nat,
    availableCatheters: nat,
    dressingDeprivationRate: real,
    catheterDeprivationRate: real,
    combinedDeprivedRate: real,
    deprivationBand: DeprivationBand,
    alertTriggered: bool)

  /** (P - A) / P * 100 when fewer than P items are available, else 0. With no
      patient in need the guard is false and nothing is divided. */
  function DeprivationRate(needed: nat, available: nat): (r: real)
    ensures 0.0 <= r <= 100.0
    ensures r == 0.0 <==> available >= needed
    ensures available < needed ==> r * needed as real == (needed - available) as real * 100.0
  {
    if available < needed then
      var f := (needed - available) as real / needed as real;
      assert f * needed as real == (needed - available) as real;
      assert 0.0 < f <= 1.0 by {
        assert (needed - available) as real <= needed as real;
      }
      f * 100.0
    else 0.0
  }

  /** One item short of the need leaves 100 / P percent of it unmet. */
  lemma OneShort(needed: nat)
    requires needed >= 1
    ensures DeprivationRate(needed, needed - 1) == 100.0 / needed as real
  {
  }

  /** (DDR + CDR) / 2 */
  function CombinedRate(dressingRate: real, catheterRate: real): (c: real)
    ensures dressingRate <= catheterRate ==> dressingRate <= c <= catheterRate
    ensures catheterRate <= dressingRate ==> catheterRate <= c <= dressingRate
    ensures c - dressingRate == catheterRate - c
  {
    (dressingRate + catheterRate) / 2.0
  }

  /** The severity band, with inclusive upper bounds 10, 30 and 60. */
  function BandOf(combined: real): (b: DeprivationBand)
    ensures b == Safe <==> combined <= 10.0
    ensures b == Shortage <==> 10.0 < combined <= 30.0
    ensures b == MajorShortage <==> 30.0 < combined <= 60.0
    ensures b == Critical <==> combined > 60.0
  {
    if combined <= 10.0 then Safe
    else if combined <= 30.0 then Shortage
    else if combined <= 60.0 then MajorShortage
    else Critical
  }

  /** The alert threshold: strictly above 30 percent, which is exactly the two
      upper bands. */
  predicate AlertOf(combined: real): (alert: bool)
    ensures alert <==> BandOf(combined) in {MajorShortage, Critical}
  {
    combined > 30.0
  }

  /** calculateResourceDeprivation, without the generated id and timestamp. */
  function CalculateResourceDeprivation(input: DeprivationInput): (r: ResourceDeprivation)
    ensures r.wardId == input.wardId && r.patientsNeedingToday == input.patientsNeedingToday
    ensures r.availableDressings == input.availableDressings && r.availableCatheters == input.availableCatheters
    ensures 0.0 <= r.dressingDeprivationRate <= 100.0
    ensures 0.0 <= r.catheterDeprivationRate <= 100.0
    ensures 0.0 <= r.combinedDeprivedRate <= 100.0
    ensures input.availableDressings >= input.patientsNeedingToday ==> r.dressingDeprivationRate == 0.0
    ensures input.availableCatheters >= input.patientsNeedingToday ==> r.catheterDeprivationRate == 0.0
    ensures IsCents(r.dressingDeprivationRate) && IsCents(r.catheterDeprivationRate) && IsCents(r.combinedDeprivedRate)
    ensures r.alertTriggered <==> r.deprivationBand in {MajorShortage, Critical}
  {
    var ddr := DeprivationRate(input.patientsNeedingToday, input.availableDressings);
    var cdr := DeprivationRate(input.patientsNeedingToday, input.availableCatheters);
    var combined := CombinedRate(ddr, cdr);
    Round2Percent(ddr);
    Round2Percent(cdr);
    Round2Percent(combined);
    Round2OfCents(0);
    ResourceDeprivation(
      input.wardId,
      input.patientsNeedingToday,
      input.availableDressings,
      input.availableCatheters,
      Round2(ddr),
      Round2(cdr),
      Round2(combined),
      BandOf(combined),
      AlertOf(combined))
  }

  /** getDeprivationBandColor: the medical palette colour of each band. */
  function DeprivationBandColor(band: DeprivationBand): (color: string)
    ensures color == "medical-green" <==> band == Safe
    ensures color == "medical-yellow" <==> band == Shortage
    ensures color == "medical-orange" <==> band == MajorShortage
    ensures color == "medical-red" <==> band == Critical
  {
    assert "medical-yellow"[8] != "medical-orange"[8];
    assert "medical-green"[8] != "medical-red"[8];
    assert "medical-green"[8] != "medical-orange"[8];
    assert "medical-yellow"[8] != "medical-red"[8];
    match band
    case Safe => "medical-green"
    case Shortage => "medical-yellow"
    case MajorShortage => "medical-orange"
    case Critical => "medical-red"
  }

  // ---------------------------------------------------------------------------
  // Properties of the engine

  function BandRank(b: DeprivationBand): nat {
    match b
    case Safe => 0
    case Shortage => 1
    case MajorShortage => 2
    case Critical => 3
  }

  /** A larger shortfall never gives a milder band. */
  lemma BandMonotone(c: real, d: real)
    requires c <= d
    ensures BandRank(BandOf(c)) <= BandRank(BandOf(d))
  {
  }

  /** The band boundaries are inclusive. */
  lemma BandBoundaries()
    ensures BandOf(10.0) == Safe && BandOf(10.01) == Shortage
    ensures BandOf(30.0) == Shortage && BandOf(30.01) == MajorShortage
    ensures BandOf(60.0) == MajorShortage && BandOf(60.01) == Critical
    ensures !AlertOf(30.0) && AlertOf(30.01)
  {
  }

  /** The returned rates are the exact ones rounded to two decimals, and band
      and alert are taken from the exact mean. */
  lemma ResultFromExactRates(input: DeprivationInput)
    ensures var r := CalculateResourceDeprivation(input);
            var ddr := DeprivationRate(input.patientsNeedingToday, input.availableDressings);
            var cdr := DeprivationRate(input.patientsNeedingToday, input.availableCatheters);
            && -0.005 < r.dressingDeprivationRate - ddr <= 0.005
            && -0.005 < r.catheterDeprivationRate - cdr <= 0.005
            && -0.005 < r.combinedDeprivedRate - CombinedRate(ddr, cdr) <= 0.005
            && r.deprivationBand == BandOf(CombinedRate(ddr, cdr))
            && (r.alertTriggered <==> CombinedRate(ddr, cdr) > 30.0)
  {
  }

  /** Because the band is taken from the unrounded mean, a stored record can
      show a combined rate of 10.00 next to the band for more than 10: with 4999
      patients in need, 3999 dressings and 4999 catheters the mean is
      50000/4999 (about 10.002). */
  lemma StoredRateCanDisagreeWithBand()
    ensures var r := CalculateResourceDeprivation(DeprivationInput("w", 4999, 3999, 4999));
            r.combinedDeprivedRate == 10.0 && BandOf(r.combinedDeprivedRate) == Safe
            && r.deprivationBand == Shortage
  {
    var ddr := DeprivationRate(4999, 3999);
    assert ddr == 100000.0 / 4999.0;
    var combined := CombinedRate(ddr, 0.0);
    assert combined == 50000.0 / 4999.0;
    FloorIs(combined * 100.0 + 0.5, 1000);
  }

  /** A real but tiny shortfall is stored as 0: one dressing short for 30000
      patients is 1/300 percent, which rounds to 0.00. */
  lemma TinyShortageRoundsToZero()
    ensures DeprivationRate(30000, 29999) > 0.0
    ensures CalculateResourceDeprivation(DeprivationInput("w", 30000, 29999, 30000)).dressingDeprivationRate == 0.0
  {
    assert DeprivationRate(30000, 29999) == 1.0 / 300.0;
    FloorIs(1.0 / 300.0 * 100.0 + 0.5, 0);
  }

  /** The ward example of the demo data: 8 patients, 5 dressings, 8 catheters. */
  lemma ExampleEightPatients()
    ensures var r := CalculateResourceDeprivation(DeprivationInput("ward-icu-1", 8, 5, 8));
            && r.dressingDeprivationRate == 37.5 && r.catheterDeprivationRate == 0.0
            && r.combinedDeprivedRate == 18.75
            && r.deprivationBand == Shortage && !r.alertTriggered
  {
    Round2OfCents(3750);
    Round2OfCents(0);
    Round2OfCents(1875);
  }

  /** The analytics form's default: 5 patients, 4 dressings, 5 catheters. */
  lemma ExampleFivePatients()
    ensures var r := CalculateResourceDeprivation(DeprivationInput("ward-icu-1", 5, 4, 5));
            && r.dressingDeprivationRate == 20.0 && r.catheterDeprivationRate == 0.0
            && r.combinedDeprivedRate == 10.0
            && r.deprivationBand == Safe && !r.alertTriggered
  {
    Round2OfCents(2000);
    Round2OfCents(0);
    Round2OfCents(1000);
  }

  /** The band colour map is total and sends different bands to different colours. */
  lemma BandColorInjective(a: DeprivationBand, b: DeprivationBand)
    ensures DeprivationBandColor(a) == DeprivationBandColor(b) <==> a == b
    ensures DeprivationBandColor(a)[..8] == "medical-"
  {
    assert "medical-yellow"[8] != "medical-orange"[8];
    assert "medical-green"[8] != "medical-red"[8];
    assert "medical-green"[8] != "medical-orange"[8];
    assert "medical-yellow"[8] != "medical-red"[8];
  }
}
