/**
 * The catalog of government and CSR support schemes, keyed by region, and
 * the matcher that filters it against a household's profile.
 */
module Schemes {
  import opened Wrappers
  import opened Strings

  /**
   * One catalog entry. The matcher reads only `consumerSegments`,
   * `requiresOwnership`, `requiresGridConnection`, `minRoofAreaSqm` and
   * `maxMonthlyConsumptionUnits`; the facet builder reads `coverage`. The
   * remaining fields are display text carried unchanged.
   */
  datatype SchemeMatch = SchemeMatch(
    id: string,
    name: string,
    description: string,
    sponsoringBody: string,
    consumerSegments: seq<string> := [],
    coverage: string := "national",
    states: seq<string> := [],
    requiresOwnership: bool := true,
    requiresGridConnection: Option<bool> := Some(true),
    subsidyType: string := "Capital",
    benefit: string := "Capital subsidy",
    applicationProcess: string := "Apply via official portal",
    applicationUrl: Option<string> := None,
    documentsRequired: string := "Refer to programme guidelines",
    timeline: string := "Processing 4-8 weeks",
    vendorInfo: string := "Empanelled vendors",
    notes: string := "",
    matchScore: real := 7.5,
    reasons: seq<string> := [],
    minRoofAreaSqm: Option<real> := None,
    maxMonthlyConsumptionUnits: Option<real> := None,
    tags: seq<string> := [])

  const PmSuryaGhar: SchemeMatch := SchemeMatch(
    id := "pm-surya-ghar",
    name := "PM Surya Ghar Muft Bijli Yojana",
    description := "Central rooftop subsidy for residential households with grid-connected homes.",
    sponsoringBody := "Central (MNRE)",
    consumerSegments := ["residential"],
    coverage := "national",
    states := ["all"],
    requiresOwnership := true,
    requiresGridConnection := Some(true),
    subsidyType := "Capital subsidy (one-time)",
    benefit := "₹30,000 per kW up to 2 kW; ₹18,000 per kW for 3rd kW; max ₹78,000",
    applicationProcess := "Apply via National Portal for Rooftop Solar",
    applicationUrl := Some("https://pmsuryaghar.gov.in/"),
    documentsRequired := "Aadhaar, property proof, recent electricity bill, bank details, local NOC if needed",
    timeline := "Subsidy credited within ~30 days of commissioning",
    vendorInfo := "MNRE-empanelled vendors",
    notes := "Requires prior energy consumption eligibility and net-metering approval",
    matchScore := 8.6,
    reasons := ["Grid-connected residential rooftop", "Meets 10 m² minimum usable area"],
    minRoofAreaSqm := Some(10.0),
    tags := ["central", "residential"])

  const GridConnectedRooftopPhaseII: SchemeMatch := SchemeMatch(
    id := "grid-connected-rooftop-phase-ii",
    name := "Grid-Connected Rooftop Solar Scheme (Phase-II)",
    description := "Central financial assistance (CFA) for residential rooftop projects up to 10 kW.",
    sponsoringBody := "Central (MNRE)",
    consumerSegments := ["residential"],
    coverage := "national",
    states := ["all"],
    requiresOwnership := true,
    requiresGridConnection := Some(true),
    subsidyType := "Central financial assistance (CFA)",
    benefit := "Up to ₹14,588/kW (1–3 kW); ₹7,294/kW beyond 3 kW (up to 10 kW); ₹94,822 fixed for >10 kW",
    applicationProcess := "Apply via DISCOM or national rooftop portal",
    applicationUrl := Some("https://solarrooftop.gov.in/"),
    documentsRequired := "Aadhaar, electricity bill, ID proof, property papers, sanctioned load document",
    timeline := "CFA credited after DISCOM verification (~60–90 days)",
    vendorInfo := "MNRE-registered and DISCOM-empanelled vendors",
    notes := "Requires MNRE-approved modules and net-meter installation",
    matchScore := 8.4,
    reasons := ["Eligible residential consumer", "Grid-connected rooftop with MNRE compliant modules"],
    minRoofAreaSqm := Some(10.0),
    tags := ["central", "residential"])

  const PmKusumA: SchemeMatch := SchemeMatch(
    id := "pm-kusum-a",
    name := "PM-KUSUM Component A",
    description := "Decentralized solar PV plants feeding power into the grid (500 kW–2 MW systems).",
    sponsoringBody := "Central (MNRE)",
    consumerSegments := ["agricultural"],
    coverage := "national",
    states := ["all"],
    requiresOwnership := true,
    requiresGridConnection := Some(true),
    subsidyType := "Feed-in tariff + PBI",
    benefit := "FiT set by SERC; PBI ~₹0.40/unit or ₹6.6 lakh/MW (whichever lower) for 5 years",
    applicationProcess := "Apply via DISCOM/RPGs through competitive bids",
    documentsRequired := "Land records, project report, renewable power generator registration",
    timeline := "Five-year incentive period post commissioning",
    vendorInfo := "Coordinated by DISCOMs and empanelled developers",
    notes := "Requires land near feeders and grid connectivity",
    matchScore := 7.5,
    reasons := ["Farmer/FPO looking to export power", "Adequate land availability"],
    minRoofAreaSqm := Some(2000.0),
    tags := ["agriculture", "large-scale"])

  const PmKusumB: SchemeMatch := SchemeMatch(
    id := "pm-kusum-b",
    name := "PM-KUSUM Component B",
    description := "Capital subsidy for standalone off-grid solar pumps for irrigation.",
    sponsoringBody := "Central + State",
    consumerSegments := ["agricultural"],
    coverage := "national",
    states := ["all"],
    requiresOwnership := true,
    requiresGridConnection := Some(false),
    subsidyType := "Capital subsidy (CFA)",
    benefit := "CFA 30% (50% in NE/hill states); state ≥30%; farmer ~10% (balance via NABARD loan)",
    applicationProcess := "Apply online at PM-KUSUM portal",
    documentsRequired := "Aadhaar, land/cultivation docs, Kisan ID, electricity connectivity proof",
    timeline := "Loan and subsidy disbursed post approval",
    vendorInfo := "Approved solar pump vendors",
    notes := "Supports irrigation in non/poorly electrified areas",
    matchScore := 7.8,
    reasons := ["Agricultural consumer with poor grid access", "Eligible for central + state subsidy combo"],
    tags := ["agriculture", "off-grid"])

  const PmKusumC: SchemeMatch := SchemeMatch(
    id := "pm-kusum-c",
    name := "PM-KUSUM Component C",
    description := "Solarisation of existing grid-connected agricultural pumps with surplus export provision.",
    sponsoringBody := "Central + State",
    consumerSegments := ["agricultural"],
    coverage := "national",
    states := ["all"],
    requiresOwnership := true,
    requiresGridConnection := Some(true),
    subsidyType := "Capital subsidy (CFA)",
    benefit := "CFA 30% (50% NE/hills); state ≥30%; farmer contributes ~10%",
    applicationProcess := "Apply via PM-KUSUM portal with DISCOM approvals",
    documentsRequired := "Aadhaar, land/pump details, DISCOM sanction letters",
    timeline := "Subsidy released after commissioning and net-meter setup",
    vendorInfo := "Empanelled solar pump vendors",
    notes := "Ideal for farmers wanting net metering on irrigation feeders",
    matchScore := 7.6,
    reasons := ["Existing grid pump eligible for solarisation", "DISCOM sanctioned connection"],
    tags := ["agriculture", "grid"])

  const TataMicrogrid: SchemeMatch := SchemeMatch(
    id := "tata-microgrid",
    name := "Tata Power Renewable Microgrid",
    description := "CSR-led deployment of renewable microgrids in rural communities without reliable grid access.",
    sponsoringBody := "Tata Power (CSR)",
    consumerSegments := ["community"],
    coverage := "csr",
    states := ["rural"],
    requiresOwnership := false,
    requiresGridConnection := Some(false),
    subsidyType := "CSR infrastructure grant",
    benefit := "80%-90% of microgrid costs covered; community pays remainder (₹2.5–₹10/kWh)",
    applicationProcess := "Coordinated with local bodies; not an individual application",
    documentsRequired := "Community-level agreements and local body endorsements",
    timeline := "Project-based deployment; timelines vary",
    vendorInfo := "Implemented by Tata Power Renewable Microgrid subsidiary",
    notes := "Includes prepaid smart meters and entrepreneurship support",
    matchScore := 6.9,
    reasons := ["Ideal for rural settlements seeking reliable power", "CSR-backed installation and maintenance"],
    tags := ["community", "off-grid"])

  /** The nationwide schemes, in catalog order. */
  const NationalSchemes: seq<SchemeMatch> := [PmSuryaGhar, GridConnectedRooftopPhaseII, PmKusumA, PmKusumB, PmKusumC, TataMicrogrid]

  const GujRes2024: SchemeMatch := SchemeMatch(
    id := "guj-res-2024",
    name := "Surya Gujarat Residential Rooftop",
    description := "State capital subsidy for residential rooftop systems up to 10 kW.",
    sponsoringBody := "GUVNL",
    consumerSegments := ["residential"],
    coverage := "state",
    states := ["gujarat"],
    requiresOwnership := true,
    requiresGridConnection := Some(true),
    subsidyType := "Capital subsidy",
    benefit := "₹10,000/kW up to 3 kW (state top-up)",
    applicationProcess := "Apply via SURYA Gujarat portal",
    applicationUrl := Some("https://surya.gujarat.gov.in/"),
    documentsRequired := "Aadhaar, electricity bill, property proof, bank details",
    timeline := "Disbursement in 60-90 days",
    vendorInfo := "State empanelled EPC vendors",
    notes := "System must be installed by GEDA empanelled partner",
    matchScore := 8.4,
    reasons := ["Residential consumer in Gujarat", "Grid-connected rooftop with empanelled vendor"],
    tags := ["state", "residential"])

  /** The schemes offered in Gujarat. */
  const GujaratSchemes: seq<SchemeMatch> := [GujRes2024]

  const MaharashtraSmart: SchemeMatch := SchemeMatch(
    id := "maharashtra-smart",
    name := "SMART Solar Scheme (Maharashtra)",
    description := "State subsidy for residential consumers with low electricity usage.",
    sponsoringBody := "Government of Maharashtra",
    consumerSegments := ["residential"],
    coverage := "state",
    states := ["maharashtra"],
    requiresOwnership := true,
    requiresGridConnection := Some(true),
    subsidyType := "Capital subsidy",
    benefit := "90%–95% of system cost covered combining central + state support",
    applicationProcess := "Apply via MahaDISCOM i-SMART portal",
    documentsRequired := "Income/caste certificate, Aadhaar, latest bill, address proof",
    timeline := "State subsidy credited after central subsidy",
    vendorInfo := "MahaDISCOM-empanelled vendors",
    notes := "Focused on households with usage <100 units/month",
    matchScore := 7.9,
    reasons := ["Eligible low-consumption residential consumer", "Combines central and state benefits"],
    maxMonthlyConsumptionUnits := Some(100.0),
    tags := ["state", "low-income"])

  /** The schemes offered in Maharashtra. */
  const MaharashtraSchemes: seq<SchemeMatch> := [MaharashtraSmart]

  const DelhiPolicy2023: SchemeMatch := SchemeMatch(
    id := "delhi-policy-2023",
    name := "Delhi Solar Energy Policy 2023 - Residential Subsidies",
    description := "Capital subsidy plus generation-based incentive for Delhi households.",
    sponsoringBody := "Government of NCT Delhi",
    consumerSegments := ["residential"],
    coverage := "state",
    states := ["delhi"],
    requiresOwnership := true,
    requiresGridConnection := Some(true),
    subsidyType := "Capital subsidy + GBI",
    benefit := "₹2,000/kW (max ₹10,000) + GBI ₹2-3/kWh for 5 years",
    applicationProcess := "Apply via Delhi DISCOM portals",
    documentsRequired := "Aadhaar, electricity bill, bank details, proof of residency/ownership",
    timeline := "Subsidy applied in first bill post commissioning; GBI disbursed annually",
    vendorInfo := "DISCOM-empanelled vendors",
    notes := "Complements central subsidies for residential rooftops",
    matchScore := 8.2,
    reasons := ["Delhi residential consumer", "Qualifies for GBI and capex support"],
    tags := ["state", "delhi", "residential"])

  /** The schemes offered in Delhi. */
  const DelhiSchemes: seq<SchemeMatch> := [DelhiPolicy2023]

  const RajasthanTopup: SchemeMatch := SchemeMatch(
    id := "rajasthan-topup",
    name := "Rajasthan Rooftop Solar Subsidy (State Top-up)",
    description := "State top-up for Mukhyamantri Nishulk Bijli Yojana beneficiaries installing rooftop solar.",
    sponsoringBody := "Government of Rajasthan",
    consumerSegments := ["residential"],
    coverage := "state",
    states := ["rajasthan"],
    requiresOwnership := true,
    requiresGridConnection := Some(true),
    subsidyType := "Additional capital incentive",
    benefit := "₹17,000 state top-up for systems above 1.1 kW",
    applicationProcess := "Apply via RRECL portal after central approval",
    documentsRequired := "Aadhaar, beneficiary certificate, land/electricity documents",
    timeline := "Released alongside central CFA or via export incentive",
    vendorInfo := "RRECL-empanelled vendors",
    notes := "Targets households exceeding free-unit allowance under Mukhya Mantri Nishulk Bijli Yojana",
    matchScore := 7.7,
    reasons := ["Rajasthan residential consumer", "Eligible under Nishulk Bijli Yojana"],
    tags := ["state", "residential"])

  const PinkPromise: SchemeMatch := SchemeMatch(
    id := "pink-promise",
    name := "Pink Promise Solar Electrification",
    description := "CSR-funded solar electrification for women-led homes in select districts.",
    sponsoringBody := "Rajasthan Royals Foundation (CSR)",
    consumerSegments := ["community"],
    coverage := "csr",
    states := ["rajasthan", "assam"],
    requiresOwnership := false,
    requiresGridConnection := Some(false),
    subsidyType := "CSR in-kind installation",
    benefit := "Free solar lighting/electrification kits for selected beneficiaries",
    applicationProcess := "Selection via campaign partners; not open for direct public applications",
    documentsRequired := "Community partner verification and beneficiary identification",
    timeline := "Project concluded Aug 2025 (260 homes electrified)",
    vendorInfo := "Luminous Power & Bindi International",
    notes := "Focuses on women-led rural households with training component",
    matchScore := 6.5,
    reasons := ["Community-led initiative in Rajasthan", "Supports off-grid women-led households"],
    tags := ["community", "women", "off-grid"])

  const BarefootCollege: SchemeMatch := SchemeMatch(
    id := "barefoot-college",
    name := "Barefoot College Solar Electrification",
    description := "Community-financed solar home systems maintained by trained rural women engineers.",
    sponsoringBody := "Barefoot College (NGO)",
    consumerSegments := ["community"],
    coverage := "csr",
    states := ["rajasthan", "multi-state"],
    requiresOwnership := false,
    requiresGridConnection := Some(false),
    subsidyType := "Training + community financing",
    benefit := "Villagers pay ~₹5–₹10/month comparable to kerosene expenses",
    applicationProcess := "Communities nominated; women attend six-month training in Tilonia",
    documentsRequired := "Community nominations; no formal checklist",
    timeline := "Ongoing (750 villages electrified)",
    vendorInfo := "Local women trained as solar engineers",
    notes := "Empowers rural women, ensures local maintenance and ownership",
    matchScore := 6.8,
    reasons := ["Ideal for off-grid rural clusters", "Community-driven implementation"],
    tags := ["community", "women", "off-grid"])

  /** The schemes offered in Rajasthan, in catalog order. */
  const RajasthanSchemes: seq<SchemeMatch> := [RajasthanTopup, PinkPromise, BarefootCollege]

  /** The catalog: region key to the schemes offered there, "national" for nationwide ones. */
  const SchemesByState: map<string, seq<SchemeMatch>> := map[
    "national" := NationalSchemes,
    "gujarat" := GujaratSchemes,
    "maharashtra" := MaharashtraSchemes,
    "delhi" := DelhiSchemes,
    "rajasthan" := RajasthanSchemes
  ]

  /** The household facts the matcher filters on. */
  datatype Household = Household(
    consumerSegment: string,
    ownsProperty: bool,
    isGridConnected: bool,
    roofArea: Option<real>,
    annualConsumption: Option<real>)

  /** `SchemesByState.get(key, [])`. */
  function SchemesFor(key: string): (r: seq<SchemeMatch>)
    ensures key !in SchemesByState ==> r == []
    ensures key == "national" ==> r == NationalSchemes
  {
    if key in SchemesByState then SchemesByState[key] else []
  }

  /** The region key of a state argument: `(state or "").lower()`. */
  function StateKey(state: Option<string>): (r: string)
    ensures state.None? ==> r == ""
    ensures state.Some? ==> |r| == |state.value|
    ensures forall i :: 0 <= i < |r| ==> !('A' <= r[i] <= 'Z')
  {
    Lower(state.GetOr(""))
  }

  /** The schemes to test, in order: the state's own list, then the national list. */
  function Candidates(state: Option<string>): (r: seq<SchemeMatch>)
    ensures r == SchemesFor(StateKey(state)) + NationalSchemes
  {
    SchemesFor(StateKey(state)) + SchemesFor("national")
  }

  /** Python truthiness of an optional number: present and non-zero. */
  predicate Truthy(x: Option<real>)
    ensures Truthy(x) <==> x != None && x != Some(0.0)
  {
    x.Some? && x.value != 0.0
  }

  /** An empty segment list admits every segment. */
  predicate SegmentOk(s: SchemeMatch, h: Household)
    ensures SegmentOk(s, h) <==> s.consumerSegments == [] || h.consumerSegment in s.consumerSegments
  {
    !(h.consumerSegment !in s.consumerSegments && |s.consumerSegments| > 0)
  }

  /** `requires_ownership` is a plain flag, so each scheme is owner-only or non-owner-only. */
  predicate OwnershipOk(s: SchemeMatch, h: Household)
    ensures OwnershipOk(s, h) <==> s.requiresOwnership == h.ownsProperty
  {
    !(s.requiresOwnership && !h.ownsProperty) && !(!s.requiresOwnership && h.ownsProperty)
  }

  /** No grid requirement admits every home; otherwise the grid status must agree. */
  predicate GridOk(s: SchemeMatch, h: Household)
    ensures GridOk(s, h) <==>
      s.requiresGridConnection.None? || s.requiresGridConnection == Some(h.isGridConnected)
  {
    assert s.requiresGridConnection.Some? ==>
      (s.requiresGridConnection == Some(h.isGridConnected) <==> s.requiresGridConnection.value == h.isGridConnected);
    !(s.requiresGridConnection == Some(true) && !h.isGridConnected) &&
    !(s.requiresGridConnection == Some(false) && h.isGridConnected)
  }

  /** A missing or zero floor, or a missing or zero roof area, admits the home. */
  predicate RoofOk(s: SchemeMatch, h: Household)
    ensures RoofOk(s, h) <==>
      s.minRoofAreaSqm.None? || s.minRoofAreaSqm.value == 0.0 ||
      h.roofArea.None? || h.roofArea.value == 0.0 || h.roofArea.value >= s.minRoofAreaSqm.value
  {
    !(Truthy(s.minRoofAreaSqm) && Truthy(h.roofArea) && h.roofArea.value < s.minRoofAreaSqm.value)
  }

  /** A missing or zero ceiling, or a missing or zero consumption, admits the home. */
  predicate ConsumptionOk(s: SchemeMatch, h: Household)
    ensures ConsumptionOk(s, h) <==>
      s.maxMonthlyConsumptionUnits.None? || s.maxMonthlyConsumptionUnits.value == 0.0 ||
      h.annualConsumption.None? || h.annualConsumption.value == 0.0 ||
      h.annualConsumption.value / 12.0 <= s.maxMonthlyConsumptionUnits.value
  {
    !(Truthy(s.maxMonthlyConsumptionUnits) && Truthy(h.annualConsumption) &&
      h.annualConsumption.value / 12.0 > s.maxMonthlyConsumptionUnits.value)
  }

  /** The five checks of the matcher, applied in order. */
  predicate Eligible(s: SchemeMatch, h: Household)
    ensures Eligible(s, h) ==>
      (s.consumerSegments == [] || h.consumerSegment in s.consumerSegments) &&
      s.requiresOwnership == h.ownsProperty &&
      (s.requiresGridConnection.None? || s.requiresGridConnection == Some(h.isGridConnected))
  {
    SegmentOk(s, h) && OwnershipOk(s, h) && GridOk(s, h) && RoofOk(s, h) && ConsumptionOk(s, h)
  }

  /** The eligible candidates, in candidate order. */
  function Filter(cands: seq<SchemeMatch>, h: Household): (r: seq<SchemeMatch>)
    ensures |r| <= |cands|
  {
    if cands == [] then []
    else
      var n := |cands| - 1;
      Filter(cands[..n], h) + (if Eligible(cands[n], h) then [cands[n]] else [])
  }

  /** Filtering a concatenation filters each part: candidate order is kept. */
  lemma {:induction false} FilterAppend(a: seq<SchemeMatch>, b: seq<SchemeMatch>, h: Household)
    ensures Filter(a + b, h) == Filter(a, h) + Filter(b, h)
  {
    if b == [] {
      assert a + b == a;
    } else {
      var n := |b| - 1;
      assert (a + b)[..|a + b| - 1] == a + b[..n];
      FilterAppend(a, b[..n], h);
    }
  }

  /** Every kept scheme is a candidate that passes all five checks. */
  lemma {:induction false} FilterSound(cands: seq<SchemeMatch>, h: Household)
    ensures forall s :: s in Filter(cands, h) ==> s in cands && Eligible(s, h)
  {
    if cands != [] {
      var n := |cands| - 1;
      FilterSound(cands[..n], h);
      assert cands == cands[..n] + [cands[n]];
    }
  }

  /** Every candidate that passes all five checks is kept. */
  lemma {:induction false} FilterComplete(cands: seq<SchemeMatch>, h: Household)
    ensures forall s :: s in cands && Eligible(s, h) ==> s in Filter(cands, h)
  {
    if cands != [] {
      var n := |cands| - 1;
      FilterComplete(cands[..n], h);
      assert cands == cands[..n] + [cands[n]];
    }
  }

  /** Each eligible scheme is kept as often as it occurs among the candidates; others never. */
  lemma {:induction false} FilterCount(cands: seq<SchemeMatch>, h: Household, s: SchemeMatch)
    ensures multiset(Filter(cands, h))[s] == if Eligible(s, h) then multiset(cands)[s] else 0
  {
    if cands != [] {
      var n := |cands| - 1;
      FilterCount(cands[..n], h, s);
      assert cands == cands[..n] + [cands[n]];
    }
  }

  /** When every candidate is eligible nothing is dropped; when none is, nothing is kept. */
  lemma {:induction false} FilterAllOrNone(cands: seq<SchemeMatch>, h: Household)
    ensures (forall i :: 0 <= i < |cands| ==> Eligible(cands[i], h)) ==> Filter(cands, h) == cands
    ensures (forall i :: 0 <= i < |cands| ==> !Eligible(cands[i], h)) ==> Filter(cands, h) == []
  {
    if cands != [] {
      var n := |cands| - 1;
      assert forall i :: 0 <= i < n ==> cands[..n][i] == cands[i];
      FilterAllOrNone(cands[..n], h);
      assert cands == cands[..n] + [cands[n]];
    }
  }

  /** One more candidate is kept exactly when it is eligible. */
  lemma FilterSnoc(cands: seq<SchemeMatch>, i: int, h: Household)
    requires 0 <= i < |cands|
    ensures Filter(cands[..i + 1], h) == Filter(cands[..i], h) + (if Eligible(cands[i], h) then [cands[i]] else [])
  {
    assert cands[..i + 1][..i] == cands[..i];
  }

  /**
   * Schemes offered to a household: each candidate, state list first, that
   * passes the segment, ownership, grid, roof-area and consumption checks.
   */
  method MatchSubsidySchemes(
    state: Option<string>,
    consumerSegment: string,
    ownsProperty: bool,
    isGridConnected: bool,
    roofArea: Option<real> := None,
    annualConsumption: Option<real> := None)
    returns (matches: seq<SchemeMatch>)
    ensures matches == Filter(Candidates(state),
      Household(consumerSegment, ownsProperty, isGridConnected, roofArea, annualConsumption))
  {
    ghost var h := Household(consumerSegment, ownsProperty, isGridConnected, roofArea, annualConsumption);
    matches := [];

    var stateKey := Lower(state.GetOr(""));
    var candidateSchemes: seq<SchemeMatch>;
    if stateKey in SchemesByState {
      candidateSchemes := SchemesByState[stateKey];
    } else {
      candidateSchemes := [];
    }
    candidateSchemes := candidateSchemes + (if "national" in SchemesByState then SchemesByState["national"] else []);

    var i := 0;
    while i < |candidateSchemes|
      invariant 0 <= i <= |candidateSchemes|
      invariant matches == Filter(candidateSchemes[..i], h)
    {
      var scheme := candidateSchemes[i];
      FilterSnoc(candidateSchemes, i, h);
      i := i + 1;
      if consumerSegment !in scheme.consumerSegments && |scheme.consumerSegments| > 0 {
        continue;
      }
      if scheme.requiresOwnership && !ownsProperty {
        continue;
      }
      if !scheme.requiresOwnership && ownsProperty {
        continue;
      }
      if scheme.requiresGridConnection == Some(true) && !isGridConnected {
        continue;
      }
      if scheme.requiresGridConnection == Some(false) && isGridConnected {
        continue;
      }
      if Truthy(scheme.minRoofAreaSqm) && Truthy(roofArea) && roofArea.value < scheme.minRoofAreaSqm.value {
        continue;
      }
      if Truthy(scheme.maxMonthlyConsumptionUnits) && Truthy(annualConsumption) {
        var monthlyAvg := annualConsumption.value / 12.0;
        if monthlyAvg > scheme.maxMonthlyConsumptionUnits.value {
          continue;
        }
      }
      matches := matches + [scheme];
    }
    assert candidateSchemes[..i] == candidateSchemes;
  }

  /**
   * A scheme is matched exactly when it is a candidate for the state and
   * passes each of the five checks.
   */
  lemma MatchMembership(state: Option<string>, h: Household, s: SchemeMatch)
    ensures s in Filter(Candidates(state), h) <==> s in Candidates(state) && Eligible(s, h)
  {
    var cands := Candidates(state);
    FilterSound(cands, h);
    FilterComplete(cands, h);
  }

  /** A household that does not own its home is never offered an owner-only scheme, and vice versa. */
  lemma OwnershipSeparates(state: Option<string>, h: Household)
    ensures !h.ownsProperty ==> forall s :: s in Filter(Candidates(state), h) ==> !s.requiresOwnership
    ensures h.ownsProperty ==> forall s :: s in Filter(Candidates(state), h) ==> s.requiresOwnership
  {
    FilterSound(Candidates(state), h);
  }

  /** A grid requirement excludes off-grid homes, an off-grid requirement grid-connected ones. */
  lemma GridSeparates(state: Option<string>, h: Household)
    ensures !h.isGridConnected ==>
      forall s :: s in Filter(Candidates(state), h) ==> s.requiresGridConnection != Some(true)
    ensures h.isGridConnected ==>
      forall s :: s in Filter(Candidates(state), h) ==> s.requiresGridConnection != Some(false)
  {
    FilterSound(Candidates(state), h);
  }

  /** The region key ignores letter case. */
  lemma CandidatesCaseInsensitive(state: string)
    ensures Candidates(Some(state)) == Candidates(Some(Lower(state)))
  {
    LowerIdempotent(state);
  }

  /** An absent or unknown state leaves only the national schemes. */
  lemma UnknownStateGetsNational(state: Option<string>)
    requires StateKey(state) !in SchemesByState
    ensures Candidates(state) == NationalSchemes
  {
  }

  /** Asking for the "national" region lists the national schemes twice. */
  lemma NationalKeyListsTwice(h: Household)
    ensures Candidates(Some("National")) == NationalSchemes + NationalSchemes
    ensures Filter(Candidates(Some("National")), h) == Filter(NationalSchemes, h) + Filter(NationalSchemes, h)
  {
    assert Lower("National") == "national";
    FilterAppend(NationalSchemes, NationalSchemes, h);
  }

  function Ids(ss: seq<SchemeMatch>): (r: seq<string>)
    ensures |r| == |ss| && forall i :: 0 <= i < |ss| ==> r[i] == ss[i].id
  {
    seq(|ss|, i requires 0 <= i < |ss| => ss[i].id)
  }

  /** The national schemes one by one, for a grid-connected residential owner. */
  lemma NationalResidentialChecks(h: Household)
    requires h == Household("residential", true, true, None, None)
    ensures Eligible(NationalSchemes[0], h) && Eligible(NationalSchemes[1], h)
    ensures forall i :: 2 <= i < 6 ==> !Eligible(NationalSchemes[i], h)
  {
    assert !SegmentOk(NationalSchemes[2], h);
    assert !SegmentOk(NationalSchemes[3], h);
    assert !SegmentOk(NationalSchemes[4], h);
    assert !SegmentOk(NationalSchemes[5], h);
  }

  /** The national schemes one by one, for an off-grid community of non-owners. */
  lemma NationalCommunityChecks(h: Household)
    requires h == Household("community", false, false, None, None)
    ensures forall i :: 0 <= i < 5 ==> !Eligible(NationalSchemes[i], h)
    ensures Eligible(NationalSchemes[5], h)
  {
    assert !SegmentOk(NationalSchemes[0], h);
    assert !SegmentOk(NationalSchemes[1], h);
    assert !SegmentOk(NationalSchemes[2], h);
    assert !SegmentOk(NationalSchemes[3], h);
    assert !SegmentOk(NationalSchemes[4], h);
  }

  /** Of the national list, a grid-connected residential owner passes the first two schemes only. */
  lemma NationalForResidentialOwner(h: Household)
    requires h == Household("residential", true, true, None, None)
    ensures Filter(NationalSchemes, h) == NationalSchemes[..2]
  {
    var n := NationalSchemes;
    NationalResidentialChecks(h);
    assert n == n[..2] + n[2..];
    FilterAppend(n[..2], n[2..], h);
    FilterAllOrNone(n[..2], h);
    FilterAllOrNone(n[2..], h);
  }

  /** Of the national list, an off-grid community of non-owners passes only the CSR microgrid. */
  lemma NationalForOffGridCommunity(h: Household)
    requires h == Household("community", false, false, None, None)
    ensures Filter(NationalSchemes, h) == NationalSchemes[5..]
  {
    var n := NationalSchemes;
    NationalCommunityChecks(h);
    assert n == n[..5] + n[5..];
    FilterAppend(n[..5], n[5..], h);
    FilterAllOrNone(n[..5], h);
    FilterAllOrNone(n[5..], h);
  }

  /** Of the Rajasthan list, an off-grid community of non-owners passes the two CSR programmes. */
  lemma RajasthanForOffGridCommunity(h: Household)
    requires h == Household("community", false, false, None, None)
    ensures Filter(RajasthanSchemes, h) == RajasthanSchemes[1..]
  {
    var r := RajasthanSchemes;
    assert !SegmentOk(r[0], h);
    assert Eligible(r[1], h) && Eligible(r[2], h);
    assert r == r[..1] + r[1..];
    FilterAppend(r[..1], r[1..], h);
    FilterAllOrNone(r[..1], h);
    FilterAllOrNone(r[1..], h);
  }

  /** Of the Gujarat list, a grid-connected residential owner passes its one scheme. */
  lemma GujaratForResidentialOwner(h: Household)
    requires h == Household("residential", true, true, None, None)
    ensures Filter(GujaratSchemes, h) == GujaratSchemes
  {
    assert Eligible(GujaratSchemes[0], h);
    FilterAllOrNone(GujaratSchemes, h);
  }

  /** The state "gujarat" is tested against the Gujarat list, then the national list. */
  lemma GujaratCandidates(state: Option<string>)
    requires state == Some("gujarat")
    ensures Candidates(state) == GujaratSchemes + NationalSchemes
  {
    assert StateKey(state) == "gujarat" by {
      assert Lower("gujarat") == "gujarat";
    }
  }

  /** The state "Rajasthan" is tested against the Rajasthan list, then the national list. */
  lemma RajasthanCandidates(state: Option<string>)
    requires state == Some("Rajasthan")
    ensures Candidates(state) == RajasthanSchemes + NationalSchemes
  {
    assert StateKey(state) == "rajasthan" by {
      assert Lower("Rajasthan") == "rajasthan";
    }
  }

  /** A grid-connected residential owner in Gujarat with no known roof area. */
  lemma GujaratResidentialExample(state: Option<string>, h: Household)
    requires state == Some("gujarat") && h == Household("residential", true, true, None, None)
    ensures Ids(Filter(Candidates(state), h)) ==
      ["guj-res-2024", "pm-surya-ghar", "grid-connected-rooftop-phase-ii"]
  {
    GujaratCandidates(state);
    GujaratForResidentialOwner(h);
    NationalForResidentialOwner(h);
    FilterAppend(GujaratSchemes, NationalSchemes, h);
    assert Ids(GujaratSchemes + NationalSchemes[..2]) == ["guj-res-2024", "pm-surya-ghar", "grid-connected-rooftop-phase-ii"];
  }

  /** An off-grid community of non-owners in Rajasthan gets the three CSR programmes. */
  lemma RajasthanCommunityExample(state: Option<string>, h: Household)
    requires state == Some("Rajasthan") && h == Household("community", false, false, None, None)
    ensures Ids(Filter(Candidates(state), h)) == ["pink-promise", "barefoot-college", "tata-microgrid"]
  {
    RajasthanCandidates(state);
    RajasthanForOffGridCommunity(h);
    NationalForOffGridCommunity(h);
    FilterAppend(RajasthanSchemes, NationalSchemes, h);
    assert Ids(RajasthanSchemes[1..] + NationalSchemes[5..]) == ["pink-promise", "barefoot-college", "tata-microgrid"];
  }

  /** The facets a list of matches offers for narrowing it down. */
  datatype FilterOptions = FilterOptions(coverage: seq<string>, ownership: seq<string>, grid: seq<string>)

  /** `sorted({m.coverage for m in ms})`, built one match at a time. */
  function SortedCoverage(ms: seq<SchemeMatch>): (r: seq<string>)
    ensures StrictlyIncreasing(r)
    ensures forall c :: c in r <==> exists i :: 0 <= i < |ms| && ms[i].coverage == c
  {
    if ms == [] then []
    else
      var n := |ms| - 1;
      var prev := SortedCoverage(ms[..n]);
      assert forall i :: 0 <= i < n ==> ms[..n][i] == ms[i];
      Insert(prev, ms[n].coverage)
  }

  /**
   * The distinct coverage tiers of the matches in increasing order, with the
   * fixed ownership and grid facets.
   */
  function GetSchemeFilterOptions(matches: seq<SchemeMatch>): (r: FilterOptions)
    ensures StrictlyIncreasing(r.coverage)
    ensures forall c :: c in r.coverage <==> exists m :: m in matches && m.coverage == c
    ensures r.ownership == ["owner", "tenant"]
    ensures r.grid == ["grid", "off-grid"]
  {
    var coverage := SortedCoverage(matches);
    FilterOptions(coverage := coverage, ownership := ["owner", "tenant"], grid := ["grid", "off-grid"])
  }

  /** The coverage facet is the one increasing list of the distinct tiers, whatever order the matches come in. */
  lemma CoverageFacetDeterminate(a: seq<SchemeMatch>, b: seq<SchemeMatch>)
    requires forall m :: m in a <==> m in b
    ensures GetSchemeFilterOptions(a) == GetSchemeFilterOptions(b)
  {
    var ra, rb := GetSchemeFilterOptions(a).coverage, GetSchemeFilterOptions(b).coverage;
    forall c ensures c in ra <==> c in rb {
      if c in ra {
        var m :| m in a && m.coverage == c;
        assert m in b;
      }
      if c in rb {
        var m :| m in b && m.coverage == c;
        assert m in a;
      }
    }
    StrictlyIncreasingUnique(ra, rb);
  }
}
