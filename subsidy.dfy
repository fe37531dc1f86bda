/**
 * Tariff directory, bill-to-consumption conversion, system sizing and the
 * cost/subsidy calculator of the rooftop-solar estimator.
 *
 * Amounts (rupees, kWh, kW, m²) are exact `real`s; the source's floats are
 * not modelled bit for bit.
 */
module Subsidy {
  import opened Wrappers

  const DefaultCostPerKw: real := 65000.0            // INR per kW installed
  const DefaultAnnualProductionPerKw: real := 1100.0 // kWh per kW per year
  const DefaultAreaPerKw: real := 8.0                // m² of roof per kW
  const DefaultProviderTariff: real := 8.0           // INR per kWh, fallback

  /** A generic percentage subsidy rule, optionally capped in rupees. */
  datatype Scheme = Scheme(id: string, name: string, subsidyPercent: real, maxAmountInr: Option<real> := None)

  datatype StatePolicy = StatePolicy(capexSubsidyPercent: real := 0.0)

  datatype EstimateResult = EstimateResult(
    grossCost: real,
    central: real,
    stateSubsidy: real,
    netCost: real,
    systemKw: real)

  /** One electricity distribution company: its key, display label and tariff. */
  datatype Provider = Provider(key: string, displayLabel: string, tariff: real)

  /** The provider table, in its declared order. */
  const ElectricityProviders: seq<Provider> := [
    Provider("bses_rajdhani", "BSES Rajdhani (Delhi)", 8.2),
    Provider("bses_yamuna", "BSES Yamuna (Delhi)", 8.0),
    Provider("tpddl", "Tata Power Delhi Distribution", 8.4),
    Provider("adani_mumbai", "Adani Electricity Mumbai", 9.1),
    Provider("mseb", "MSEDCL / Mahadiscom (Maharashtra)", 7.3),
    Provider("tangedco", "TANGEDCO (Tamil Nadu)", 6.4),
    Provider("bescom", "BESCOM (Bengaluru)", 7.1),
    Provider("cesc_kolkata", "CESC (Kolkata)", 8.3),
    Provider("pspcl", "PSPCL (Punjab)", 7.0),
    Provider("ts_spdcl", "TSSPDCL (Telangana)", 7.6),
    Provider("wb_sedcl", "WBSEDCL (West Bengal)", 7.2),
    Provider("apspdcl", "APSPDCL (Andhra Pradesh)", 7.0),
    Provider("up_pcl", "UPPCL (Uttar Pradesh)", 7.4),
    Provider("gseb", "GUVNL / DGVCL (Gujarat)", 7.2)
  ]

  const ChoicePlaceholder: (string, string) := ("", "Select electricity provider / DISCOM")
  const ChoiceOther: (string, string) := ("other", "Other / Not listed")

  /** The `(key, label)` pairs of a provider list, in order. */
  function ProviderPairs(ps: seq<Provider>): (r: seq<(string, string)>)
    ensures |r| == |ps|
    ensures forall i :: 0 <= i < |ps| ==> r[i] == (ps[i].key, ps[i].displayLabel)
  {
    seq(|ps|, i requires 0 <= i < |ps| => (ps[i].key, ps[i].displayLabel))
  }

  /** A pick-list over `ps`: the placeholder, every provider in order, then "other". */
  function ProviderChoices(ps: seq<Provider>): (r: seq<(string, string)>)
    ensures |r| == |ps| + 2
    ensures r[0] == ("", "Select electricity provider / DISCOM")
    ensures r[|r| - 1] == ("other", "Other / Not listed")
    ensures forall i :: 0 <= i < |ps| ==> r[i + 1] == (ps[i].key, ps[i].displayLabel)
  {
    [ChoicePlaceholder] + ProviderPairs(ps) + [ChoiceOther]
  }

  /** The provider pick-list shown to users. */
  const ElectricityProviderChoices: seq<(string, string)> := ProviderChoices(ElectricityProviders)

  /** `k in ELECTRICITY_PROVIDERS`; neither the placeholder nor "other" is a provider key. */
  predicate IsProviderKey(k: string)
    ensures IsProviderKey(k) ==> k != "" && k != "other"
  {
    exists i :: 0 <= i < |ElectricityProviders| && ElectricityProviders[i].key == k
  }

  /** No key occurs twice in the table, and neither "" nor "other" is a provider key. */
  lemma ProviderKeysDistinct()
    ensures forall i, j :: 0 <= i < j < |ElectricityProviders| ==>
      ElectricityProviders[i].key != ElectricityProviders[j].key
    ensures !IsProviderKey("") && !IsProviderKey("other")
  {
  }

  /**
   * `{key: tariff for key in ps}`, built left to right: a later entry for a
   * key overrides an earlier one.
   */
  function TariffTable(ps: seq<Provider>): (m: map<string, real>)
    ensures |m| <= |ps|
    ensures ps != [] ==> ps[|ps| - 1].key in m && m[ps[|ps| - 1].key] == ps[|ps| - 1].tariff
  {
    if ps == [] then map[]
    else TariffTable(ps[..|ps| - 1])[ps[|ps| - 1].key := ps[|ps| - 1].tariff]
  }

  /** The table has an entry exactly for the keys that occur in `ps`. */
  lemma {:induction false} TariffTableKeys(ps: seq<Provider>)
    ensures forall k :: k in TariffTable(ps) <==> exists i :: 0 <= i < |ps| && ps[i].key == k
  {
    if ps != [] {
      var n := |ps| - 1;
      TariffTableKeys(ps[..n]);
      forall k | k in TariffTable(ps) ensures exists i :: 0 <= i < |ps| && ps[i].key == k {
        if k != ps[n].key {
          assert k in TariffTable(ps[..n]);
          var i :| 0 <= i < n && ps[..n][i].key == k;
          assert ps[i].key == k;
        }
      }
      forall k | exists i :: 0 <= i < |ps| && ps[i].key == k ensures k in TariffTable(ps) {
        var i :| 0 <= i < |ps| && ps[i].key == k;
        if i < n { assert ps[..n][i] == ps[i]; }
      }
    }
  }

  /** An entry of `ps` that no later entry overrides is found with its own tariff. */
  lemma {:induction false} TariffTableAt(ps: seq<Provider>, i: int)
    requires 0 <= i < |ps|
    requires forall j :: i < j < |ps| ==> ps[j].key != ps[i].key
    ensures ps[i].key in TariffTable(ps) && TariffTable(ps)[ps[i].key] == ps[i].tariff
  {
    var n := |ps| - 1;
    if i < n {
      assert ps[..n][i] == ps[i];
      assert forall j :: i < j < n ==> ps[..n][j] == ps[j];
      TariffTableAt(ps[..n], i);
    }
  }

  /** A table built from positive tariffs holds only positive tariffs. */
  lemma {:induction false} TariffTablePositive(ps: seq<Provider>)
    requires forall i :: 0 <= i < |ps| ==> ps[i].tariff > 0.0
    ensures forall k :: k in TariffTable(ps) ==> TariffTable(ps)[k] > 0.0
  {
    if ps != [] {
      var n := |ps| - 1;
      assert forall i :: 0 <= i < n ==> ps[..n][i] == ps[i];
      TariffTablePositive(ps[..n]);
    }
  }

  /** The provider tariffs plus the "other" entry at the fallback rate. */
  const ProviderTariffs: map<string, real> :=
    TariffTable(ElectricityProviders)["other" := DefaultProviderTariff]

  /** Exactly the provider keys and "other" have a tariff entry. */
  lemma ProviderTariffsKeys()
    ensures forall k :: k in ProviderTariffs <==> IsProviderKey(k) || k == "other"
  {
    TariffTableKeys(ElectricityProviders);
  }

  lemma ProviderTariffAt(i: int)
    requires 0 <= i < |ElectricityProviders|
    ensures ElectricityProviders[i].key in ProviderTariffs &&
      ProviderTariffs[ElectricityProviders[i].key] == ElectricityProviders[i].tariff
  {
    ProviderKeysDistinct();
    TariffTableAt(ElectricityProviders, i);
  }

  /** Each provider's entry is its own tariff, "other" has the fallback rate, and all rates are positive. */
  lemma ProviderTariffsValues()
    ensures forall i :: 0 <= i < |ElectricityProviders| ==>
      ElectricityProviders[i].key in ProviderTariffs &&
      ProviderTariffs[ElectricityProviders[i].key] == ElectricityProviders[i].tariff
    ensures ProviderTariffs["other"] == DefaultProviderTariff
    ensures forall k :: k in ProviderTariffs ==> ProviderTariffs[k] > 0.0
  {
    forall i | 0 <= i < |ElectricityProviders|
      ensures ElectricityProviders[i].key in ProviderTariffs &&
        ProviderTariffs[ElectricityProviders[i].key] == ElectricityProviders[i].tariff
    {
      ProviderTariffAt(i);
    }
    TariffTablePositive(ElectricityProviders);
  }

  /** `ElectricityProviders.get(key)`: the first provider with that key. */
  function FindProvider(ps: seq<Provider>, key: string): (r: Option<Provider>)
    ensures r.None? <==> forall i :: 0 <= i < |ps| ==> ps[i].key != key
    ensures r.Some? ==> exists i :: 0 <= i < |ps| && ps[i] == r.value && ps[i].key == key
  {
    if ps == [] then None
    else if ps[0].key == key then Some(ps[0])
    else
      var r := FindProvider(ps[1..], key);
      assert forall i :: 1 <= i < |ps| ==> ps[1..][i - 1] == ps[i];
      r
  }

  /** `key or ""`: an absent key reads as the empty string. */
  function KeyOrEmpty(key: Option<string>): (r: string)
    ensures key.None? ==> r == ""
    ensures key.Some? ==> r == key.value
  {
    key.GetOr("")
  }

  /** The display label of a provider key. */
  function GetProviderLabel(key: Option<string>): (r: Option<string>)
    ensures key == None || key == Some("") ==> r == None
    ensures key == Some("other") ==> r == Some("Other provider")
    ensures key.Some? && key.value != "other" && !IsProviderKey(key.value) ==> r == None
    ensures forall i :: 0 <= i < |ElectricityProviders| && key == Some(ElectricityProviders[i].key) ==>
      r == Some(ElectricityProviders[i].displayLabel)
  {
    ProviderKeysDistinct();
    if key.None? || key.value == "" then None
    else if key.value == "other" then Some("Other provider")
    else
      match FindProvider(ElectricityProviders, key.value)
      case None => None
      case Some(p) => Some(p.displayLabel)
  }

  /** `PROVIDER_TARIFFS.get(key or "", DEFAULT_PROVIDER_TARIFF)`. */
  function GetProviderTariff(key: Option<string>): (t: real)
    ensures forall i :: 0 <= i < |ElectricityProviders| && key == Some(ElectricityProviders[i].key) ==>
      t == ElectricityProviders[i].tariff
    ensures !IsProviderKey(KeyOrEmpty(key)) ==> t == DefaultProviderTariff
    ensures t > 0.0
  {
    ProviderKeysDistinct();
    ProviderTariffsKeys();
    ProviderTariffsValues();
    var k := KeyOrEmpty(key);
    if k in ProviderTariffs then ProviderTariffs[k] else DefaultProviderTariff
  }

  /**
   * Monthly kWh implied by a bill: absent, zero or negative bills give no
   * estimate; otherwise the bill divided by the provider's tariff (with the
   * fallback rate standing in for a non-positive tariff), never negative.
   */
  function EstimateMonthlyUnitsFromBill(monthlyBillInr: Option<real>, key: Option<string>): (r: Option<real>)
    ensures monthlyBillInr.None? || monthlyBillInr.value <= 0.0 ==> r == None
    ensures monthlyBillInr.Some? && monthlyBillInr.value > 0.0 ==>
      r == Some(monthlyBillInr.value / GetProviderTariff(key)) && r.value > 0.0
  {
    ProviderTariffsValues();
    if monthlyBillInr.None? || monthlyBillInr.value == 0.0 || monthlyBillInr.value <= 0.0 then None
    else
      var k := KeyOrEmpty(key);
      var looked := if k in ProviderTariffs then ProviderTariffs[k] else DefaultProviderTariff;
      var tariff := if looked <= 0.0 then DefaultProviderTariff else looked;
      var units := monthlyBillInr.value / tariff;
      Some(if units > 0.0 then units else 0.0)
  }

  lemma BescomBillExample()
    ensures EstimateMonthlyUnitsFromBill(Some(820.0), Some("bescom")) == Some(820.0 / 7.1)
    ensures EstimateMonthlyUnitsFromBill(Some(0.0), Some("bescom")) == None
  {
    assert ElectricityProviders[6].key == "bescom" && ElectricityProviders[6].tariff == 7.1;
    assert GetProviderTariff(Some("bescom")) == 7.1;
  }

  /** `max(0.5, min(10.0, x))`: the practical residential range in kW. */
  function Clamp(x: real): (r: real)
    ensures 0.5 <= r <= 10.0
    ensures 0.5 <= x <= 10.0 ==> r == x
    ensures x < 0.5 ==> r == 0.5
    ensures x > 10.0 ==> r == 10.0
  {
    var lo := if x < 10.0 then x else 10.0;
    if lo > 0.5 then lo else 0.5
  }

  /** Python's `x and x > 0` on an optional number; the truthiness test adds nothing to `> 0`. */
  predicate Positive(x: Option<real>)
    ensures Positive(x) <==> x.Some? && x.value > 0.0
  {
    x.Some? && x.value != 0.0 && x.value > 0.0
  }

  /**
   * Recommended system size: from positive annual consumption if known, else
   * from positive roof area, else a 1 kW starter system; always clamped.
   */
  function EstimateSystemSizeKw(roofArea: Option<real> := None, annualConsumptionKwh: Option<real> := None): (kw: real)
    ensures 0.5 <= kw <= 10.0
    ensures Positive(annualConsumptionKwh) ==>
      kw == Clamp(annualConsumptionKwh.value / DefaultAnnualProductionPerKw)
    ensures !Positive(annualConsumptionKwh) && Positive(roofArea) ==>
      kw == Clamp(roofArea.value / DefaultAreaPerKw)
    ensures !Positive(annualConsumptionKwh) && !Positive(roofArea) ==> kw == 1.0
  {
    var estimated :=
      if Positive(annualConsumptionKwh) then annualConsumptionKwh.value / DefaultAnnualProductionPerKw
      else if Positive(roofArea) then roofArea.value / DefaultAreaPerKw
      else 1.0;
    Clamp(estimated)
  }

  lemma SizingExamples()
    ensures EstimateSystemSizeKw(Some(80.0), None) == 10.0
    ensures EstimateSystemSizeKw(None, Some(550.0)) == 0.5
    ensures EstimateSystemSizeKw(None, None) == 1.0
  {
  }

  /** Known consumption decides the size; the roof area is then irrelevant. */
  lemma ConsumptionOverridesRoof(roof1: Option<real>, roof2: Option<real>, annual: Option<real>)
    requires Positive(annual)
    ensures EstimateSystemSizeKw(roof1, annual) == EstimateSystemSizeKw(roof2, annual)
  {
  }

  /** Between two positive consumptions, the larger never recommends a smaller system. */
  lemma SizeMonotoneInConsumption(roof: Option<real>, a1: real, a2: real)
    requires 0.0 < a1 <= a2
    ensures EstimateSystemSizeKw(roof, Some(a1)) <= EstimateSystemSizeKw(roof, Some(a2))
  {
    assert a1 / DefaultAnnualProductionPerKw <= a2 / DefaultAnnualProductionPerKw;
  }

  /** The rule set used when the caller names none. */
  const BuiltinSchemes: seq<Scheme> := [
    Scheme(id := "pm-surya-ghar", name := "PM-Surya Ghar: Muft Bijli Yojana",
           subsidyPercent := 40.0, maxAmountInr := Some(200000.0))
  ]

  /** One rule's contribution: its percentage of the gross cost, cut down to its cap if it has one. */
  function Eligible(grossCost: real, s: Scheme): (e: real)
    ensures s.maxAmountInr.None? ==> e == grossCost * (s.subsidyPercent / 100.0)
    ensures s.maxAmountInr.Some? ==>
      e <= s.maxAmountInr.value && e <= grossCost * (s.subsidyPercent / 100.0) &&
      (e == s.maxAmountInr.value || e == grossCost * (s.subsidyPercent / 100.0))
  {
    var raw := grossCost * (s.subsidyPercent / 100.0);
    match s.maxAmountInr
    case None => raw
    case Some(cap) => if raw < cap then raw else cap
  }

  /** The central subsidy: the rules' contributions summed in list order. */
  function CentralTotal(grossCost: real, rules: seq<Scheme>): (r: real)
    ensures rules == [] ==> r == 0.0
    ensures |rules| == 1 ==> r == Eligible(grossCost, rules[0])
  {
    if rules == [] then 0.0
    else CentralTotal(grossCost, rules[..|rules| - 1]) + Eligible(grossCost, rules[|rules| - 1])
  }

  /** One more rule adds its own contribution to the central total. */
  lemma CentralTotalSnoc(grossCost: real, rules: seq<Scheme>, i: int)
    requires 0 <= i < |rules|
    ensures CentralTotal(grossCost, rules[..i + 1]) == CentralTotal(grossCost, rules[..i]) + Eligible(grossCost, rules[i])
  {
    assert rules[..i + 1][..i] == rules[..i];
  }

  /** The sum of the rules' percentages. */
  function TotalPercent(rules: seq<Scheme>): real
  {
    if rules == [] then 0.0
    else TotalPercent(rules[..|rules| - 1]) + rules[|rules| - 1].subsidyPercent
  }

  lemma {:induction false} CentralTotalAppend(g: real, a: seq<Scheme>, b: seq<Scheme>)
    ensures CentralTotal(g, a + b) == CentralTotal(g, a) + CentralTotal(g, b)
  {
    if b == [] {
      assert a + b == a;
    } else {
      var n := |b| - 1;
      assert (a + b)[..|a + b| - 1] == a + b[..n];
      CentralTotalAppend(g, a, b[..n]);
    }
  }

  /** The central subsidy does not depend on the order of the rules. */
  lemma {:induction false} CentralTotalPermutation(g: real, a: seq<Scheme>, b: seq<Scheme>)
    requires multiset(a) == multiset(b)
    ensures CentralTotal(g, a) == CentralTotal(g, b)
  {
    if a == [] {
      assert |b| == |multiset(b)| == 0;
    } else {
      var n := |a| - 1;
      var x := a[n];
      assert a == a[..n] + [x];
      assert x in multiset(b);
      var i :| 0 <= i < |b| && b[i] == x;
      var b' := b[..i] + b[i + 1..];
      assert b == b[..i] + [x] + b[i + 1..];
      assert multiset(b') == multiset(b) - multiset{x};
      assert multiset(a[..n]) == multiset(a) - multiset{x};
      CentralTotalPermutation(g, a[..n], b');
      CentralTotalAppend(g, b[..i] + [x], b[i + 1..]);
      CentralTotalAppend(g, b[..i], [x]);
      CentralTotalAppend(g, b[..i], b[i + 1..]);
      assert [x][..0] == [];
    }
  }

  /** Caps only ever lower the subsidy: the total never exceeds the uncapped percentage total. */
  lemma {:induction false} CentralTotalAtMostPercent(g: real, rules: seq<Scheme>)
    ensures CentralTotal(g, rules) <= g * (TotalPercent(rules) / 100.0)
  {
    if rules != [] {
      var n := |rules| - 1;
      CentralTotalAtMostPercent(g, rules[..n]);
    }
  }

  /** Without caps the central subsidy is exactly the summed percentage of the gross cost. */
  lemma {:induction false} CentralTotalUncapped(g: real, rules: seq<Scheme>)
    requires forall i :: 0 <= i < |rules| ==> rules[i].maxAmountInr.None?
    ensures CentralTotal(g, rules) == g * (TotalPercent(rules) / 100.0)
  {
    if rules != [] {
      var n := |rules| - 1;
      CentralTotalUncapped(g, rules[..n]);
    }
  }

  /** With a non-negative cost, percentages and caps, the central subsidy is non-negative. */
  lemma {:induction false} CentralTotalNonNegative(g: real, rules: seq<Scheme>)
    requires g >= 0.0
    requires forall i :: 0 <= i < |rules| ==>
      rules[i].subsidyPercent >= 0.0 && (rules[i].maxAmountInr.Some? ==> rules[i].maxAmountInr.value >= 0.0)
    ensures CentralTotal(g, rules) >= 0.0
  {
    if rules != [] {
      var n := |rules| - 1;
      CentralTotalNonNegative(g, rules[..n]);
      var s := rules[n];
      assert g * (s.subsidyPercent / 100.0) >= 0.0;
    }
  }

  /** The built-in 40% rule below and above its 2 lakh cap. */
  lemma BuiltinRuleExamples()
    ensures CentralTotal(3.0 * DefaultCostPerKw, BuiltinSchemes) == 78000.0
    ensures CentralTotal(10.0 * DefaultCostPerKw, BuiltinSchemes) == 200000.0
  {
    assert BuiltinSchemes[..0] == [];
  }

  /** The state subsidy: a flat percentage of the gross cost, none without a policy. */
  function StateSubsidy(grossCost: real, statePolicy: Option<StatePolicy>): (r: real)
    ensures statePolicy.None? ==> r == 0.0
    ensures statePolicy.Some? ==> r == grossCost * (statePolicy.value.capexSubsidyPercent / 100.0)
  {
    var policy := statePolicy.GetOr(StatePolicy());
    grossCost * (policy.capexSubsidyPercent / 100.0)
  }

  /** The loop of the estimate: each rule's capped contribution, added in list order. */
  method CentralSum(grossCost: real, schemes: seq<Scheme>) returns (centralTotal: real)
    ensures centralTotal == CentralTotal(grossCost, schemes)
  {
    centralTotal := 0.0;
    var i := 0;
    while i < |schemes|
      invariant 0 <= i <= |schemes|
      invariant centralTotal == CentralTotal(grossCost, schemes[..i])
    {
      var scheme := schemes[i];
      var eligible := grossCost * (scheme.subsidyPercent / 100.0);
      if scheme.maxAmountInr.Some? {
        eligible := if eligible < scheme.maxAmountInr.value then eligible else scheme.maxAmountInr.value;
      }
      assert eligible == Eligible(grossCost, scheme);
      CentralTotalSnoc(grossCost, schemes, i);
      centralTotal := centralTotal + eligible;
      i := i + 1;
    }
    assert schemes[..i] == schemes;
  }

  /**
   * The cost estimate: gross cost, the capped central subsidies summed rule by
   * rule, the state subsidy, and the net cost floored at zero.
   */
  method EstimateSubsidy(
    systemKw: real,
    costPerKw: real := DefaultCostPerKw,
    schemes: seq<Scheme> := BuiltinSchemes,
    statePolicy: Option<StatePolicy> := None)
    returns (r: EstimateResult)
    ensures r.systemKw == systemKw
    ensures r.grossCost == systemKw * costPerKw
    ensures r.central == CentralTotal(r.grossCost, schemes)
    ensures r.stateSubsidy == StateSubsidy(r.grossCost, statePolicy)
    ensures r.netCost >= 0.0 && r.netCost >= r.grossCost - r.central - r.stateSubsidy
    ensures r.netCost == 0.0 || r.netCost == r.grossCost - r.central - r.stateSubsidy
  {
    var policy := statePolicy.GetOr(StatePolicy());
    var grossCost := systemKw * costPerKw;

    var centralTotal := CentralSum(grossCost, schemes);

    var stateTotal := grossCost * (policy.capexSubsidyPercent / 100.0);
    var remaining := grossCost - centralTotal - stateTotal;
    var netCost := if 0.0 < remaining then remaining else 0.0;

    r := EstimateResult(
      grossCost := grossCost,
      central := centralTotal,
      stateSubsidy := stateTotal,
      netCost := netCost,
      systemKw := systemKw);
  }
}
