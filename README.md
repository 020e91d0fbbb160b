# Energitiltak — a verified model of the energy-saving formulas

Energitiltak ("energy measures") is a small calculator. It gives rough
estimates of the annual energy saved by four building retrofit measures:

- insulation upgrade (`etterisolering`)
- better heat recovery in the ventilation unit (`bedre_HRV`)
- lower specific fan power (`lavere_SFP`)
- heat-pump conversion (`varmepumpe`)

It also converts a saving into a cost saving and a CO₂ reduction. Everything
the program computes happens in four one-line formulas and a few inline
conversions in the tab code. All of it is pure arithmetic on a few scalars.

The model has two modules:

- `Tiltak` (`tiltak.dfy`) holds the constants (`RHO`, `CP`, `HDD`, `Kh`,
  `SecondsPerHour`) and the four formulas as functions over `real`. Beside
  them are lemmas:
  - a closed form for each formula, zero saving without improvement, and non-negativity;
  - additivity or scaling in the area `A`, the airflow `qv` of the
    heat-recovery formula, the hours `timer` and the heat demand `Q_netto`;
  - monotonicity in `A`, the new U-value, the new efficiency, the new SFP,
    the hours and the COP (other inputs are not covered);
  - the sign of the heat-pump result;
  - the default input of each of the five tabs.
- `Omregning` (`omregning.dfy`) holds the conversions around the formulas:
  airflow from m³/h to m³/s, and a kWh saving into kr and kg CO₂. Beside
  them are lemmas about how the conversions compose with the formulas.

The program computes in double precision. The model computes in exact reals,
so `0.30 - 0.18` is exactly `0.12` here.

The model follows `streamlit_app.py` as written:

- The heat-pump result is not floored at zero, and its divisors are not
  guarded.
- The emission factor is already in kg/kWh, so there is no gram-to-kilogram
  division.
- The heat-recovery formula has no operating-hours factor and uses
  `CP = 0.00033`.

## Model

| member | source | states |
|---|---|---|
| `Tiltak.Floor0` | streamlit_app.py:11 | `max(x, 0)`: the result is never negative, never below `x`, and is either `x` or 0 |
| `Tiltak.Etterisolering` | streamlit_app.py:10-12 | insulation saving is ≥ 0 for a non-negative area and exactly 0 whenever `U_new >= U_old`, whatever the area |
| `Tiltak.BedreHrv` | streamlit_app.py:14-16 | heat-recovery saving is ≥ 0 for a non-negative airflow and exactly 0 whenever `eta_new <= eta_old` |
| `Tiltak.LavereSfp` | streamlit_app.py:18-20 | fan-power saving is ≥ 0 for non-negative airflow and hours, and exactly 0 whenever `SFP_new >= SFP_old` |
| `Tiltak.Varmepumpe` | streamlit_app.py:22-23 | heat-pump saving is defined only for non-zero boiler efficiency and COP; it is 0 when COP equals the boiler efficiency or the demand is 0 |
| `Tiltak.DegreeHours` | streamlit_app.py:4-7 | `Kh = HDD * 24 = 115200` K·h, and `RHO * CP * Kh = 45.6192` |
| `Tiltak.EtterisoleringClosedForm` | streamlit_app.py:6-12 | when `U_old > U_new`, the saving equals `(U_old - U_new) * A * 115200 / 1000` |
| `Tiltak.EtterisoleringAdditiveInArea` | streamlit_app.py:10-12 | the saving for area `A1 + A2` is the saving for `A1` plus the saving for `A2` |
| `Tiltak.EtterisoleringScalesWithArea` | streamlit_app.py:10-12 | the saving for area `k * A` is `k` times the saving for `A` |
| `Tiltak.EtterisoleringMonotoneInArea` | streamlit_app.py:10-12 | a larger area never gives a smaller saving |
| `Tiltak.EtterisoleringMonotoneInNewU` | streamlit_app.py:10-12 | for a non-negative area, a lower new U-value never gives a smaller saving |
| `Tiltak.EtterisoleringDefaultInput` | streamlit_app.py:33-40 | the tab's defaults (1800 m², 0.30 → 0.18) give exactly 24883.2 kWh/year |
| `Tiltak.BedreHrvClosedForm` | streamlit_app.py:4-16 | when `eta_new > eta_old`, the saving equals `1.2 * 0.00033 * qv * (eta_new - eta_old) * 115200` |
| `Tiltak.BedreHrvAdditiveInAirflow` | streamlit_app.py:14-16 | the saving for airflow `q1 + q2` is the sum of the savings for `q1` and `q2` |
| `Tiltak.BedreHrvMonotoneInNewEta` | streamlit_app.py:14-16 | for a non-negative airflow, a higher new efficiency never gives a smaller saving |
| `Tiltak.BedreHrvDefaultInput` | streamlit_app.py:44-48 | the tab's defaults (60000 m³/h, 80 % → 88 %) give exactly 60.8256 kWh/year, shown as ≈ 61 |
| `Tiltak.BedreHrvCorrected` | streamlit_app.py:14-16 | heat-recovery saving with the seconds-per-hour factor restored: ≥ 0 for a non-negative airflow, 0 without an efficiency gain |
| `Tiltak.BedreHrvMissesHourFactor` | streamlit_app.py:14-16 | the corrected saving is exactly 3600 times the program's, and differs from it whenever airflow and efficiency gain are positive |
| `Tiltak.BedreHrvCorrectedDefaultInput` | streamlit_app.py:44-48 | on the tab's defaults the corrected formula gives 218972.16 kWh/year |
| `Tiltak.LavereSfpClosedForm` | streamlit_app.py:18-20 | when `SFP_old > SFP_new`, the saving equals `(SFP_old - SFP_new) * qv * timer` |
| `Tiltak.LavereSfpScalesWithHours` | streamlit_app.py:18-20 | the saving for `k * timer` hours is `k` times the saving for `timer` hours, so doubling the hours doubles the saving |
| `Tiltak.LavereSfpMonotoneInHours` | streamlit_app.py:18-20 | for a non-negative airflow, more operating hours never give a smaller saving |
| `Tiltak.LavereSfpMonotoneInNewSfp` | streamlit_app.py:18-20 | for non-negative airflow and hours, a lower new SFP never gives a smaller saving |
| `Tiltak.LavereSfpDefaultInput` | streamlit_app.py:52-57 | the tab's defaults (60000 m³/h, SFP 1.8 → 1.2, 3000 h) give exactly 30000 kWh/year |
| `Tiltak.VarmepumpeIsDeliveredEnergyDifference` | streamlit_app.py:22-23 | the saving is the boiler's delivered energy `Q / eta_old` minus the heat pump's `Q / COP` |
| `Tiltak.VarmepumpePositive` | streamlit_app.py:22-23 | with positive demand and `0 < eta_old < COP`, the saving is strictly positive |
| `Tiltak.VarmepumpeNegative` | streamlit_app.py:22-23 | the result is not floored: with positive demand and `0 < COP < eta_old`, it is strictly negative |
| `Tiltak.VarmepumpePositiveOnInputRanges` | streamlit_app.py:61-63 | over the tab's ranges (demand 1000..50000000, boiler 0.5..1.0, COP 1.5..8.0) the saving is strictly positive |
| `Tiltak.VarmepumpeAdditiveInDemand` | streamlit_app.py:22-23 | the saving for demand `Q1 + Q2` is the sum of the savings for `Q1` and `Q2` |
| `Tiltak.VarmepumpeMonotoneInCop` | streamlit_app.py:22-23 | for non-negative demand and positive COPs, a higher COP never gives a smaller saving |
| `Tiltak.VarmepumpeDefaultInput` | streamlit_app.py:59-65 | the tab's defaults (600000 kWh/year, boiler 0.95, COP 3.2) give exactly 8437500/19 ≈ 444079 kWh/year |
| `Omregning.M3hToM3s` | streamlit_app.py:48 | the converted airflow times 3600 is the airflow entered, and it is ≥ 0 when the entry is |
| `Omregning.M3hToM3sRoundTrip` | streamlit_app.py:48 | an airflow in m³/s, scaled by 3600 to m³/h and converted back, is unchanged |
| `Omregning.LavereSfpFromHourlyAirflow` | streamlit_app.py:52-57 | with airflow entered in m³/h, the fan-power saving is `max(SFP_old - SFP_new, 0) * qv * timer / 3600` |
| `Omregning.BedreHrvFromHourlyAirflow` | streamlit_app.py:44-48 | with airflow entered in m³/h, the heat-recovery saving is `RHO * CP * Kh * qv * max(eta_new - eta_old, 0) / 3600` |
| `Omregning.BedreHrvCorrectedFromHourlyAirflow` | streamlit_app.py:44-48 | with the hour factor restored, the tab's saving is `RHO * CP * qv * max(eta_new - eta_old, 0) * Kh` on the m³/h entry itself |
| `Omregning.Kostnad` | streamlit_app.py:73 | cost saving is ≥ 0 for non-negative kWh and price, and 0 when either is 0 |
| `Omregning.Co2Reduksjon` | streamlit_app.py:73 | CO₂ reduction is ≥ 0 for non-negative kWh and factor, and 0 when either is 0 |
| `Omregning.RegnOm` | streamlit_app.py:69-73 | both reported figures are ≥ 0 on the tab's non-negative domains, and both are 0 for a zero saving |
| `Omregning.KostnadMonotoneInPrice` | streamlit_app.py:69-73 | for a non-negative saving, a higher price never gives a smaller cost saving |
| `Omregning.RegnOmAdditive` | streamlit_app.py:73 | the cost and the CO₂ of a sum of two savings are the sums of their separate costs and CO₂ figures |
| `Omregning.KostnadOfTotal` | streamlit_app.py:71-73 | pricing a typed-in total of several savings gives the sum of their separate cost savings |
| `Omregning.RegnOmDefaultInput` | streamlit_app.py:69-73 | the tab's defaults (100000 kWh, 1.25 kr/kWh, 0.02 kg/kWh) give 125000 kr/year and 2000 kg CO₂/year |

`KostnadOfTotal` uses two helper definitions that model no source line:
`Omregning.Total` sums a sequence of savings, and `Omregning.Kostnader`
prices each of them. The program has no such sum. The economics tab asks
the operator to type in a saving carried over from the other tabs (line 71),
and the lemma states what pricing such a typed-in sum means.

## Findings

| source | as written | input that shows it | evidently intended | confidence | as-written member | corrected member |
|---|---|---|---|---|---|---|
| streamlit_app.py:14-16 | `RHO * CP * qv_m3_s * d_eta * Kh`. With `CP` in kWh/(kg·K) and `qv` in m³/s, this is energy per second of operation. It is multiplied by degree-hours without a factor of 3600 s/h. | The heat-recovery tab's defaults: 60000 m³/h, 80 % → 88 %. The program computes 60.8256 kWh/year for an air-handling unit of that size, shown as ≈ 61. | `RHO * CP * (qv_m3_s * 3600) * d_eta * Kh`, which gives 218972.16 kWh/year on the same input. This takes line 5's unit for `CP`, kWh/(kg·K), at its word. 0.00033 is also the usual volumetric heat capacity of air in kWh/(m³·K); read that way, `RHO` counts the density twice and the intended value is 182476.8 kWh/year. | high on the units; not executed | `Tiltak.BedreHrvMissesHourFactor` | `Tiltak.BedreHrvCorrected` |

`Tiltak.BedreHrv` models the formula as written, because that is what the
program computes. `Tiltak.BedreHrvCorrected` and the lemmas about it state the
intended saving.

## Left out

- The Streamlit user interface is not modelled. This covers the title, tabs, number inputs, sliders, buttons and messages. It has no behaviour beyond collecting the inputs and showing the results.
- The `:,.0f` display formatting is not modelled. Rounding happens only when a result is shown.
- IEEE-754 double arithmetic is not modelled. Every quantity is an exact `real`.
- Widget range bounds are not modelled. The `st.number_input` and `st.slider` widgets keep each entry within its minimum and maximum, and the formulas do not check the bounds again. The bounds appear only as preconditions of `Tiltak.VarmepumpePositiveOnInputRanges` and as the domains named in the non-negativity contracts.
- Tiltak.Varmepumpe: the program raises a division-by-zero error when `eta_old` or `COP` is 0. The model does not model that error. It requires both to be non-zero instead. The program's sliders never reach 0.
- Only `streamlit_app.py` is modelled. Calculations that exist only in other files of the repository are not part of this model.
