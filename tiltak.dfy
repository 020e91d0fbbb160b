/**
 The four energy-saving formulas of the calculator ("tiltak" = measure).
 Each one turns a handful of physical inputs into an annual saving in kWh.
 Quantities are modelled as `real`: the model is exact where the program
 computes in double precision.
 */
module Tiltak {

  /** Air density, kg/m³. */
  const RHO: real := 1.2
  /** Specific heat capacity of air, kWh/(kg·K). */
  const CP: real := 0.00033
  /** Heating degree-days of the site ("graddager"). */
  const HDD: int := 4800
  /** Degree-hours, K·h: the degree-days times 24. */
  const Kh: real := (HDD * 24) as real
  /** Seconds per hour: the factor between m³/s and m³/h. */
  const SecondsPerHour: real := 3600.0

  /** The program's `max(x, 0)`: the improvement, never below zero. */
  function Floor0(x: real): (r: real)
    ensures r >= 0.0 && r >= x
    ensures r == x || r == 0.0
  {
    if 0.0 > x then 0.0 else x
  }

  /** Insulation upgrade: area A (m²), U-value before and after (W/m²K). */
  function Etterisolering(A: real, U_old: real, U_new: real): (r: real)
    ensures A >= 0.0 ==> r >= 0.0
    ensures U_new >= U_old ==> r == 0.0
  {
    var dU := Floor0(U_old - U_new);
    dU * A * Kh / 1000.0
  }

  /** Better heat recovery: airflow (m³/s) and recovery efficiency before and after. */
  function BedreHrv(qv_m3_s: real, eta_old: real, eta_new: real): (r: real)
    ensures qv_m3_s >= 0.0 ==> r >= 0.0
    ensures eta_new <= eta_old ==> r == 0.0
  {
    var d_eta := Floor0(eta_new - eta_old);
    RHO * CP * qv_m3_s * d_eta * Kh
  }

  /** Lower specific fan power: airflow (m³/s), SFP before and after (kW/(m³/s)), operating hours. */
  function LavereSfp(qv_m3_s: real, SFP_old: real, SFP_new: real, timer: real): (r: real)
    ensures qv_m3_s >= 0.0 && timer >= 0.0 ==> r >= 0.0
    ensures SFP_new >= SFP_old ==> r == 0.0
  {
    var dSFP := Floor0(SFP_old - SFP_new);
    dSFP * qv_m3_s * timer
  }

  /**
   Heat-pump conversion: net heat demand (kWh/year), efficiency of the old
   boiler and the heat pump's COP. Neither the result nor the denominators are
   guarded in the program, so the two divisors must be non-zero.
   */
  function Varmepumpe(Q_netto: real, eta_old: real, COP: real): (r: real)
    requires eta_old != 0.0 && COP != 0.0
    ensures COP == eta_old ==> r == 0.0
    ensures Q_netto == 0.0 ==> r == 0.0
  {
    Q_netto * (1.0 / eta_old - 1.0 / COP)
  }

  // ---------------------------------------------------------------------
  // Constants

  lemma DegreeHours()
    ensures Kh == 115200.0
    ensures RHO * CP * Kh == 45.6192
  {
  }

  // ---------------------------------------------------------------------
  // Insulation

  /** Whenever U improves, the saving is the U-difference times area times degree-hours, in kWh. */
  lemma EtterisoleringClosedForm(A: real, U_old: real, U_new: real)
    requires U_old > U_new
    ensures Etterisolering(A, U_old, U_new) == (U_old - U_new) * A * 115200.0 / 1000.0
  {
  }

  /** The saving is additive in the area: two facades insulated alike save the sum. */
  lemma EtterisoleringAdditiveInArea(A1: real, A2: real, U_old: real, U_new: real)
    ensures Etterisolering(A1 + A2, U_old, U_new)
         == Etterisolering(A1, U_old, U_new) + Etterisolering(A2, U_old, U_new)
  {
  }

  /** The saving scales with the area. */
  lemma EtterisoleringScalesWithArea(k: real, A: real, U_old: real, U_new: real)
    ensures Etterisolering(k * A, U_old, U_new) == k * Etterisolering(A, U_old, U_new)
  {
  }

  /** A larger area never saves less. */
  lemma EtterisoleringMonotoneInArea(A1: real, A2: real, U_old: real, U_new: real)
    requires A1 <= A2
    ensures Etterisolering(A1, U_old, U_new) <= Etterisolering(A2, U_old, U_new)
  {
  }

  /** A better (lower) new U-value never saves less, for a non-negative area. */
  lemma EtterisoleringMonotoneInNewU(A: real, U_old: real, U1: real, U2: real)
    requires A >= 0.0 && U1 <= U2
    ensures Etterisolering(A, U_old, U1) >= Etterisolering(A, U_old, U2)
  {
  }

  /** The default input of the insulation tab: 1800 m², 0.30 -> 0.18 W/m²K. */
  lemma EtterisoleringDefaultInput()
    ensures Etterisolering(1800.0, 0.30, 0.18) == 24883.2
  {
  }

  // ---------------------------------------------------------------------
  // Heat recovery

  /** When efficiency improves, the saving is ρ·cp·qv·Δη·Kh. */
  lemma BedreHrvClosedForm(qv_m3_s: real, eta_old: real, eta_new: real)
    requires eta_new > eta_old
    ensures BedreHrv(qv_m3_s, eta_old, eta_new) == 1.2 * 0.00033 * qv_m3_s * (eta_new - eta_old) * 115200.0
  {
  }

  /** The saving is additive in the airflow. */
  lemma BedreHrvAdditiveInAirflow(q1: real, q2: real, eta_old: real, eta_new: real)
    ensures BedreHrv(q1 + q2, eta_old, eta_new) == BedreHrv(q1, eta_old, eta_new) + BedreHrv(q2, eta_old, eta_new)
  {
  }

  /** A better new efficiency never saves less, for a non-negative airflow. */
  lemma BedreHrvMonotoneInNewEta(qv_m3_s: real, eta_old: real, e1: real, e2: real)
    requires qv_m3_s >= 0.0 && e1 <= e2
    ensures BedreHrv(qv_m3_s, eta_old, e1) <= BedreHrv(qv_m3_s, eta_old, e2)
  {
  }

  /** The default input of the heat-recovery tab: 60000 m³/h (16 2/3 m³/s), 80 % -> 88 %. */
  lemma BedreHrvDefaultInput()
    ensures BedreHrv(60000.0 / SecondsPerHour, 0.80, 0.88) == 60.8256
  {
  }

  /**
   The heat-recovery formula with its units made consistent: ρ·cp·qv with qv in
   m³/s is a power per kelvin per SECOND of operation, so multiplying it by
   degree-HOURS needs the factor of 3600 seconds per hour that the program leaves out.
   */
  function BedreHrvCorrected(qv_m3_s: real, eta_old: real, eta_new: real): (r: real)
    ensures qv_m3_s >= 0.0 ==> r >= 0.0
    ensures eta_new <= eta_old ==> r == 0.0
  {
    var d_eta := Floor0(eta_new - eta_old);
    RHO * CP * (qv_m3_s * SecondsPerHour) * d_eta * Kh
  }

  /** The program's heat-recovery saving is 3600 times too small wherever there is a saving. */
  lemma BedreHrvMissesHourFactor(qv_m3_s: real, eta_old: real, eta_new: real)
    ensures BedreHrvCorrected(qv_m3_s, eta_old, eta_new) == SecondsPerHour * BedreHrv(qv_m3_s, eta_old, eta_new)
    ensures qv_m3_s > 0.0 && eta_new > eta_old ==> BedreHrvCorrected(qv_m3_s, eta_old, eta_new) != BedreHrv(qv_m3_s, eta_old, eta_new)
  {
  }

  /** On the tab's default input the corrected formula gives 218972.16 kWh/year where the program computes 60.8256. */
  lemma BedreHrvCorrectedDefaultInput()
    ensures BedreHrvCorrected(60000.0 / SecondsPerHour, 0.80, 0.88) == 218972.16
  {
  }

  // ---------------------------------------------------------------------
  // Fan power

  /** When SFP drops, the saving is ΔSFP · qv · hours. */
  lemma LavereSfpClosedForm(qv_m3_s: real, SFP_old: real, SFP_new: real, timer: real)
    requires SFP_old > SFP_new
    ensures LavereSfp(qv_m3_s, SFP_old, SFP_new, timer) == (SFP_old - SFP_new) * qv_m3_s * timer
  {
  }

  /** The saving scales with the operating hours: doubling the hours doubles the saving. */
  lemma LavereSfpScalesWithHours(k: real, qv_m3_s: real, SFP_old: real, SFP_new: real, timer: real)
    ensures LavereSfp(qv_m3_s, SFP_old, SFP_new, k * timer) == k * LavereSfp(qv_m3_s, SFP_old, SFP_new, timer)
  {
  }

  /** More operating hours never save less, for a non-negative airflow. */
  lemma LavereSfpMonotoneInHours(qv_m3_s: real, SFP_old: real, SFP_new: real, t1: real, t2: real)
    requires qv_m3_s >= 0.0 && t1 <= t2
    ensures LavereSfp(qv_m3_s, SFP_old, SFP_new, t1) <= LavereSfp(qv_m3_s, SFP_old, SFP_new, t2)
  {
  }

  /** A lower new SFP never saves less, for non-negative airflow and hours. */
  lemma LavereSfpMonotoneInNewSfp(qv_m3_s: real, SFP_old: real, s1: real, s2: real, timer: real)
    requires qv_m3_s >= 0.0 && timer >= 0.0 && s1 <= s2
    ensures LavereSfp(qv_m3_s, SFP_old, s1, timer) >= LavereSfp(qv_m3_s, SFP_old, s2, timer)
  {
  }

  /** The default input of the fan-power tab: 60000 m³/h, SFP 1.8 -> 1.2, 3000 hours. */
  lemma LavereSfpDefaultInput()
    ensures LavereSfp(60000.0 / SecondsPerHour, 1.8, 1.2, 3000.0) == 30000.0
  {
  }

  // ---------------------------------------------------------------------
  // Heat pump

  /** The saving is the fuel the old boiler burns minus the electricity the heat pump draws. */
  lemma VarmepumpeIsDeliveredEnergyDifference(Q_netto: real, eta_old: real, COP: real)
    requires eta_old != 0.0 && COP != 0.0
    ensures Varmepumpe(Q_netto, eta_old, COP) == Q_netto / eta_old - Q_netto / COP
  {
  }

  /** With positive demand and a heat pump whose COP beats the boiler's efficiency, the saving is positive. */
  lemma VarmepumpePositive(Q_netto: real, eta_old: real, COP: real)
    requires Q_netto > 0.0 && 0.0 < eta_old < COP
    ensures Varmepumpe(Q_netto, eta_old, COP) > 0.0
  {
  }

  /** The result is not floored: a heat pump worse than the boiler gives a negative "saving". */
  lemma VarmepumpeNegative(Q_netto: real, eta_old: real, COP: real)
    requires Q_netto > 0.0 && 0.0 < COP < eta_old
    ensures Varmepumpe(Q_netto, eta_old, COP) < 0.0
  {
  }

  /** Over the input ranges of the heat-pump tab (boiler 0.5..1.0, COP 1.5..8.0) the saving is positive. */
  lemma VarmepumpePositiveOnInputRanges(Q_netto: real, eta_old: real, COP: real)
    requires 1000.0 <= Q_netto <= 50000000.0
    requires 0.5 <= eta_old <= 1.0 && 1.5 <= COP <= 8.0
    ensures Varmepumpe(Q_netto, eta_old, COP) > 0.0
  {
    VarmepumpePositive(Q_netto, eta_old, COP);
  }

  /** The saving is additive in the heat demand. */
  lemma VarmepumpeAdditiveInDemand(Q1: real, Q2: real, eta_old: real, COP: real)
    requires eta_old != 0.0 && COP != 0.0
    ensures Varmepumpe(Q1 + Q2, eta_old, COP) == Varmepumpe(Q1, eta_old, COP) + Varmepumpe(Q2, eta_old, COP)
  {
  }

  /** For non-negative demand and a positive COP, a better heat pump never saves less. */
  lemma VarmepumpeMonotoneInCop(Q_netto: real, eta_old: real, c1: real, c2: real)
    requires Q_netto >= 0.0 && eta_old != 0.0 && 0.0 < c1 <= c2
    ensures Varmepumpe(Q_netto, eta_old, c1) <= Varmepumpe(Q_netto, eta_old, c2)
  {
    assert (1.0 / c2) * c2 == 1.0 && (1.0 / c1) * c1 == 1.0;
    assert 1.0 / c2 <= 1.0 / c1 by {
      assert (1.0 / c2) * c1 <= (1.0 / c2) * c2;
    }
    var k1, k2 := 1.0 / eta_old - 1.0 / c1, 1.0 / eta_old - 1.0 / c2;
    assert Q_netto * (k2 - k1) >= 0.0;
  }

  /** The default input of the heat-pump tab: 600000 kWh/year, boiler 0.95, COP 3.2. */
  lemma VarmepumpeDefaultInput()
    ensures Varmepumpe(600000.0, 0.95, 3.2) == 8437500.0 / 19.0
  {
  }
}
