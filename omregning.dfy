/**
 The conversions the calculator's tabs apply around the formulas: airflow
 entered in m³/h is turned into m³/s before it reaches the ventilation
 formulas, and a saving in kWh/year is turned into a cost saving and a CO₂
 reduction ("omregning" = conversion).
 */
module Omregning {
  import opened Tiltak

  /** Airflow from m³/h (as entered) to m³/s (as the formulas take it). */
  function M3hToM3s(qv_m3_h: real): (r: real)
    ensures r * SecondsPerHour == qv_m3_h
    ensures qv_m3_h >= 0.0 ==> r >= 0.0
  {
    qv_m3_h / SecondsPerHour
  }

  /** Annual cost saving, kr/year, from a saving in kWh/year and a price in kr/kWh. */
  function Kostnad(kWh: real, pris: real): (r: real)
    ensures kWh >= 0.0 && pris >= 0.0 ==> r >= 0.0
    ensures kWh == 0.0 || pris == 0.0 ==> r == 0.0
  {
    kWh * pris
  }

  /** Annual CO₂ reduction, kg/year, from a saving in kWh/year and an emission factor already in kg/kWh. */
  function Co2Reduksjon(kWh: real, co2: real): (r: real)
    ensures kWh >= 0.0 && co2 >= 0.0 ==> r >= 0.0
    ensures kWh == 0.0 || co2 == 0.0 ==> r == 0.0
  {
    kWh * co2
  }

  /** What the economics tab reports for one saving. */
  datatype Okonomi = Okonomi(kostnad: real, co2: real)

  /** The economics tab: cost and CO₂ for the same saving, computed with no rounding. */
  function RegnOm(kWh: real, pris: real, co2: real): (r: Okonomi)
    ensures kWh >= 0.0 && pris >= 0.0 && co2 >= 0.0 ==> r.kostnad >= 0.0 && r.co2 >= 0.0
    ensures kWh == 0.0 ==> r == Okonomi(0.0, 0.0)
  {
    Okonomi(Kostnad(kWh, pris), Co2Reduksjon(kWh, co2))
  }

  // ---------------------------------------------------------------------
  // Airflow entered in m³/h

  /** An airflow given in m³/s, scaled up to m³/h and converted back, is unchanged. */
  lemma M3hToM3sRoundTrip(qv_m3_h: real)
    ensures M3hToM3s(qv_m3_h * SecondsPerHour) == qv_m3_h
  {
  }

  /** The fan-power tab: with airflow in m³/h the saving is ΔSFP · qv · hours / 3600. */
  lemma LavereSfpFromHourlyAirflow(qv_m3_h: real, SFP_old: real, SFP_new: real, timer: real)
    ensures LavereSfp(M3hToM3s(qv_m3_h), SFP_old, SFP_new, timer)
         == Floor0(SFP_old - SFP_new) * qv_m3_h * timer / SecondsPerHour
  {
  }

  /** The heat-recovery tab: with airflow in m³/h the saving is ρ·cp·qv·Δη·Kh / 3600. */
  lemma BedreHrvFromHourlyAirflow(qv_m3_h: real, eta_old: real, eta_new: real)
    ensures BedreHrv(M3hToM3s(qv_m3_h), eta_old, eta_new)
         == RHO * CP * Kh * qv_m3_h * Floor0(eta_new - eta_old) / SecondsPerHour
  {
  }

  /**
   With the seconds-to-hours factor restored, the heat-recovery tab's saving is
   ρ·cp·qv·Δη·Kh with the airflow exactly as entered in m³/h.
   */
  lemma BedreHrvCorrectedFromHourlyAirflow(qv_m3_h: real, eta_old: real, eta_new: real)
    ensures BedreHrvCorrected(M3hToM3s(qv_m3_h), eta_old, eta_new)
         == RHO * CP * qv_m3_h * Floor0(eta_new - eta_old) * Kh
  {
  }

  // ---------------------------------------------------------------------
  // Economics

  /** The cost saving grows with the energy price, for a non-negative energy saving. */
  lemma KostnadMonotoneInPrice(kWh: real, p1: real, p2: real)
    requires kWh >= 0.0 && p1 <= p2
    ensures Kostnad(kWh, p1) <= Kostnad(kWh, p2)
  {
  }

  /** Converting the sum of two savings gives the sum of their conversions. */
  lemma RegnOmAdditive(kWh1: real, kWh2: real, pris: real, co2: real)
    ensures RegnOm(kWh1 + kWh2, pris, co2).kostnad == RegnOm(kWh1, pris, co2).kostnad + RegnOm(kWh2, pris, co2).kostnad
    ensures RegnOm(kWh1 + kWh2, pris, co2).co2 == RegnOm(kWh1, pris, co2).co2 + RegnOm(kWh2, pris, co2).co2
  {
  }

  /** Total of the savings the operator carries over from the other tabs into the economics tab. */
  function Total(savings: seq<real>): (r: real)
    ensures (forall i :: 0 <= i < |savings| ==> savings[i] >= 0.0) ==> r >= 0.0
  {
    if savings == [] then 0.0 else savings[0] + Total(savings[1..])
  }

  /** The cost saving of each carried-over saving, in order. */
  function Kostnader(savings: seq<real>, pris: real): (r: seq<real>)
    ensures |r| == |savings|
    ensures forall i :: 0 <= i < |savings| ==> r[i] == Kostnad(savings[i], pris)
  {
    if savings == [] then [] else [Kostnad(savings[0], pris)] + Kostnader(savings[1..], pris)
  }

  /** Entering the total of several measures prices it as the sum of their separate cost savings. */
  lemma {:induction false} KostnadOfTotal(savings: seq<real>, pris: real)
    ensures Kostnad(Total(savings), pris) == Total(Kostnader(savings, pris))
  {
    if savings != [] {
      var head, tail := savings[0], savings[1..];
      KostnadOfTotal(tail, pris);
      var rest := Kostnader(tail, pris);
      var t := Total(tail);
      assert Total(savings) == head + t;
      RegnOmAdditive(head, t, pris, 0.0);
      assert Kostnader(savings, pris) == [Kostnad(head, pris)] + rest;
      assert ([Kostnad(head, pris)] + rest)[1..] == rest;
    }
  }

  /** The default input of the economics tab: 100000 kWh/year at 1.25 kr/kWh and 0.02 kg CO₂/kWh. */
  lemma RegnOmDefaultInput()
    ensures RegnOm(100000.0, 1.25, 0.02) == Okonomi(125000.0, 2000.0)
  {
  }
}
