# Rooftop-solar subsidy estimator and scheme matcher, in Dafny

This project models the calculation core of SolarisWeb, a site that helps
Indian households estimate rooftop-solar subsidies. The core has two
independent parts.

1. **Tariff, sizing and cost calculator** (`app/utils/subsidy.py`, module `Subsidy`):
   - a static provider table (key, label, tariff) with its pick-list and tariff map;
   - label and tariff lookup with the "other" and unknown-key fallbacks;
   - a bill-to-monthly-units converter;
   - a system-size estimator. It uses consumption first, then roof area, then a 1 kW default, and clamps to [0.5, 10] kW;
   - the cost/subsidy estimator. It computes gross cost, sums per-rule capped central subsidies in a loop, adds a flat state percentage and floors the net cost at zero.
2. **Scheme catalog and matcher** (`app/utils/schemes.py`, module `Schemes`):
   - the region-keyed catalog of twelve schemes, carried field for field;
   - the matcher. It lower-cases the state, puts that state's list before the national list, and keeps each candidate that passes five checks in order: segment, ownership, grid, roof-area floor, monthly-consumption ceiling;
   - the facet builder. It returns the sorted distinct coverage tiers and two fixed lists.

Module `Strings` holds ASCII lower-casing and Python's string order (used by
`sorted`). Module `Wrappers` holds `Option`, which stands for Python's `None`.

Amounts are exact `real`s. Python truthiness of an optional number (`x and …`)
is written out: `Positive` means "present and > 0", and `Truthy` means "present
and non-zero". The two imperative loops are Dafny methods:
- `CentralSum`, the summing loop of `EstimateSubsidy`, keeps the invariant that the running total equals the recursive `CentralTotal` of the rules seen so far;
- `MatchSubsidySchemes` keeps the invariant that the list built so far equals the recursive `Filter` of the candidates seen so far.

The lemmas prove the properties of those two specifications:
- order independence of the central sum;
- soundness, completeness, multiplicity and order preservation of the filter;
- the ownership and grid separations;
- the worked catalog examples.

Three behaviours of the code the model keeps:
- **Negative inputs.** `estimate_subsidy` does not reject a negative size or cost, so `EstimateSubsidy` has no precondition.
- **Candidate list.** The candidate list is the state list concatenated with the national list, so the state key `"national"` yields the national schemes twice (`NationalKeyListsTwice`).
- **Ownership.** `requires_ownership` is a plain `bool`, so every scheme is owner-only or non-owner-only (`OwnershipOk`).

## Model

| member | source | states |
|---|---|---|
| Subsidy.ProviderPairs | app/utils/subsidy.py:56 | one `(key, label)` pair per provider, in table order |
| Subsidy.ProviderChoices | app/utils/subsidy.py:54-58 | the pick-list has the providers plus two entries: the `("", …)` placeholder first, `("other", …)` last, and every provider's key and label in table order in between |
| Subsidy.ProviderKeysDistinct | app/utils/subsidy.py:35-52 | no provider key occurs twice; neither `""` nor `"other"` is a provider key |
| Subsidy.IsProviderKey | app/utils/subsidy.py:35-52 | membership in the provider table; neither `""` nor `"other"` is a member |
| Subsidy.TariffTable | app/utils/subsidy.py:60-62 | the comprehension has at most one entry per provider, and the last provider's key maps to its own tariff |
| Subsidy.TariffTableKeys | app/utils/subsidy.py:60-62 | the comprehension has an entry exactly for the keys of the table |
| Subsidy.TariffTableAt | app/utils/subsidy.py:60-62 | an entry no later entry overrides maps to its own tariff |
| Subsidy.TariffTablePositive | app/utils/subsidy.py:60-62 | positive tariffs in, positive tariffs out |
| Subsidy.ProviderTariffsKeys | app/utils/subsidy.py:60-63 | the tariff map covers exactly the provider keys and `"other"` |
| Subsidy.ProviderTariffAt | app/utils/subsidy.py:60-63 | each provider key maps to that provider's tariff |
| Subsidy.ProviderTariffsValues | app/utils/subsidy.py:60-63 | every provider's tariff is its table tariff, `"other"` maps to 8.0, and every tariff is positive |
| Subsidy.FindProvider | app/utils/subsidy.py:71 | `.get` finds nothing exactly when no entry has the key; otherwise it finds an entry with that key |
| Subsidy.KeyOrEmpty | app/utils/subsidy.py:78 | `provider_key or ""`: an absent key gives `""`, a present key is kept |
| Subsidy.GetProviderLabel | app/utils/subsidy.py:66-74 | absent or empty key gives none; `"other"` gives "Other provider"; an unknown key gives none; a provider key gives that provider's label |
| Subsidy.GetProviderTariff | app/utils/subsidy.py:77-78 | a provider key gives its table tariff; absent, empty, `"other"` and unknown keys give 8.0; the result is positive |
| Subsidy.EstimateMonthlyUnitsFromBill | app/utils/subsidy.py:81-89 | absent, zero or negative bill gives none; otherwise bill divided by the provider tariff, which is positive |
| Subsidy.BescomBillExample | app/utils/subsidy.py:84-89 | a bill of 820 with "bescom" gives 820/7.1; a bill of 0 gives none |
| Subsidy.Positive | app/utils/subsidy.py:106-108 | `x and x > 0` holds exactly when the value is present and greater than zero |
| Subsidy.Clamp | app/utils/subsidy.py:113 | the result lies in [0.5, 10.0]; it equals the input inside that range and the nearer bound outside it |
| Subsidy.EstimateSystemSizeKw | app/utils/subsidy.py:102-113 | always in [0.5, 10.0]; positive consumption gives clamp(consumption/1100); otherwise a positive roof gives clamp(roof/8); otherwise 1.0 |
| Subsidy.SizingExamples | app/utils/subsidy.py:106-113 | roof 80 gives 10.0, consumption 550 gives 0.5, nothing known gives 1.0 |
| Subsidy.ConsumptionOverridesRoof | app/utils/subsidy.py:106-109 | with positive consumption the roof area does not affect the size |
| Subsidy.SizeMonotoneInConsumption | app/utils/subsidy.py:106-113 | between two positive consumptions, the larger never gives a smaller size |
| Subsidy.Eligible | app/utils/subsidy.py:128-130 | an uncapped rule gives gross*pct/100; a capped rule gives the smaller of that and its cap, so never more than the cap |
| Subsidy.CentralTotal | app/utils/subsidy.py:126-131 | no rules give a central total of 0; a single rule gives that rule's capped contribution |
| Subsidy.CentralTotalAppend | app/utils/subsidy.py:126-131 | the central total of two rule lists joined is the sum of their totals |
| Subsidy.CentralTotalPermutation | app/utils/subsidy.py:126-131 | reordering the rules does not change the central total |
| Subsidy.CentralTotalAtMostPercent | app/utils/subsidy.py:126-131 | caps only lower the total: it is at most gross times the summed percentages |
| Subsidy.CentralTotalUncapped | app/utils/subsidy.py:126-131 | with no caps the total is exactly gross times the summed percentages |
| Subsidy.CentralTotalNonNegative | app/utils/subsidy.py:126-131 | non-negative cost, percentages and caps give a non-negative total |
| Subsidy.CentralTotalSnoc | app/utils/subsidy.py:127-131 | one more rule adds exactly its own capped contribution to the total |
| Subsidy.CentralSum | app/utils/subsidy.py:126-131 | the total the loop accumulates is exactly the central total of the rules |
| Subsidy.BuiltinRuleExamples | app/utils/subsidy.py:92-99 | the built-in 40% rule gives 78000 on 3 kW at the default cost, and its 200000 cap on 10 kW |
| Subsidy.StateSubsidy | app/utils/subsidy.py:123-133 | no policy gives 0; a policy gives gross*capex/100 |
| Subsidy.EstimateSubsidy | app/utils/subsidy.py:116-142 | passes the size through; sets gross = size*cost; the central subsidy is the capped per-rule sum; state subsidy as above; net cost is gross - central - state floored at 0, so never negative |
| Strings.LowerChar | app/utils/schemes.py:358 | ASCII capitals map to lower case, everything else is unchanged, and no capital is left |
| Strings.Lower | app/utils/schemes.py:358 | lower-cases each character and keeps the length |
| Strings.LowerIdempotent | app/utils/schemes.py:358 | lower-casing twice is lower-casing once |
| Strings.Less | app/utils/schemes.py:390 | a proper prefix sorts before the longer string |
| Strings.LessIrreflexive | app/utils/schemes.py:390 | no string sorts before itself |
| Strings.LessTransitive | app/utils/schemes.py:390 | the string order is transitive |
| Strings.LessTotal | app/utils/schemes.py:390 | any two different strings are ordered one way or the other |
| Strings.LessAsymmetric | app/utils/schemes.py:390 | two strings are never each before the other |
| Strings.Insert | app/utils/schemes.py:390 | inserting into a strictly increasing list keeps it strictly increasing, adds exactly the new element and drops duplicates |
| Strings.StrictlyIncreasingUnique | app/utils/schemes.py:390 | two strictly increasing lists with the same elements are equal, so the sorted set is determined |
| Schemes.Candidates | app/utils/schemes.py:358-365 | the lower-cased state's list (empty if the key is absent; an absent state counts as "") followed by the national list |
| Schemes.StateKey | app/utils/schemes.py:358 | an absent state gives ""; otherwise the key has the state's length; no key holds an ASCII capital |
| Schemes.SchemesFor | app/utils/schemes.py:360-365 | a key absent from the catalog gives []; "national" gives the national list |
| Schemes.FilterAppend | app/utils/schemes.py:367-386 | filtering a concatenation is the concatenation of the filtered parts, so candidate order is kept |
| Schemes.Filter | app/utils/schemes.py:367-386 | never more schemes than candidates |
| Schemes.FilterSnoc | app/utils/schemes.py:367-384 | one more candidate is appended to the kept list exactly when it passes all five checks |
| Schemes.FilterSound | app/utils/schemes.py:367-384 | every kept scheme is a candidate that passes all five checks |
| Schemes.FilterComplete | app/utils/schemes.py:367-386 | every candidate that passes all five checks is kept |
| Schemes.FilterCount | app/utils/schemes.py:367-386 | a passing scheme is kept as often as it occurs among the candidates; a failing one never is |
| Schemes.FilterAllOrNone | app/utils/schemes.py:367-386 | if every candidate passes, all are kept in order; if none passes, the result is empty |
| Schemes.MatchSubsidySchemes | app/utils/schemes.py:347-386 | the list built by the loop is exactly the filtered candidate list |
| Schemes.Truthy | app/utils/schemes.py:378-380 | an optional number is truthy exactly when it is present and not zero |
| Schemes.SegmentOk | app/utils/schemes.py:368-369 | the segment check passes exactly when the scheme lists no segments or lists the household's |
| Schemes.OwnershipOk | app/utils/schemes.py:370-373 | the ownership check passes exactly when the scheme's ownership requirement equals the household's ownership |
| Schemes.GridOk | app/utils/schemes.py:374-377 | the grid check passes exactly when the scheme sets no grid requirement or one equal to the household's grid status |
| Schemes.RoofOk | app/utils/schemes.py:378-379 | the roof check fails only when floor and roof area are both non-zero and the roof is below the floor |
| Schemes.ConsumptionOk | app/utils/schemes.py:380-383 | the consumption check fails only when ceiling and consumption are both non-zero and annual/12 exceeds the ceiling |
| Schemes.Eligible | app/utils/schemes.py:368-383 | a scheme that passes all five checks fits the household's segment, has the household's ownership requirement, and has no grid requirement or the household's grid status |
| Schemes.MatchMembership | app/utils/schemes.py:367-386 | a scheme is matched exactly when it is a candidate for the state and passes all five checks |
| Schemes.OwnershipSeparates | app/utils/schemes.py:370-373 | a non-owner never gets an owner-only scheme; an owner never gets a non-owner scheme |
| Schemes.GridSeparates | app/utils/schemes.py:374-377 | an off-grid home never gets a grid-only scheme; a grid-connected home never gets an off-grid-only scheme |
| Schemes.CandidatesCaseInsensitive | app/utils/schemes.py:358-365 | the candidates depend only on the lower-cased state |
| Schemes.UnknownStateGetsNational | app/utils/schemes.py:360-365 | an absent or unknown state gives exactly the national list |
| Schemes.NationalKeyListsTwice | app/utils/schemes.py:360-365 | the state "National" yields the national list twice, and its matches twice |
| Schemes.NationalForResidentialOwner | app/utils/schemes.py:38-189 | a grid-connected residential owner, with no roof area or consumption given, passes exactly the first two national schemes |
| Schemes.NationalForOffGridCommunity | app/utils/schemes.py:38-189 | an off-grid community of non-owners passes only the CSR microgrid among national schemes |
| Schemes.RajasthanForOffGridCommunity | app/utils/schemes.py:270-343 | the same household passes the two CSR programmes of Rajasthan |
| Schemes.GujaratResidentialExample | app/utils/schemes.py:38-215 | Gujarat, residential, owner, grid-connected, unknown roof gives exactly guj-res-2024, pm-surya-ghar, grid-connected-rooftop-phase-ii, with every agricultural and community scheme excluded |
| Schemes.RajasthanCommunityExample | app/utils/schemes.py:270-343 | "Rajasthan", community, tenant, off-grid gives pink-promise, barefoot-college, tata-microgrid |
| Schemes.SortedCoverage | app/utils/schemes.py:390 | strictly increasing, and contains exactly the coverage values of the matches |
| Schemes.GetSchemeFilterOptions | app/utils/schemes.py:389-397 | coverage is strictly increasing and equals the set of the matches' coverage values; ownership is ["owner","tenant"]; grid is ["grid","off-grid"] |
| Schemes.CoverageFacetDeterminate | app/utils/schemes.py:390 | matches with the same elements, in any order, give the same facets |

## Left out

- Floating point: amounts are exact reals. IEEE rounding, NaN and infinities are not modelled (`820/7.1` is the exact quotient).
- Strings.Lower: only ASCII letters are lower-cased. Python's `str.lower()` also maps non-ASCII letters; no catalog key needs that.
- `SchemeMatch.as_dict` (app/utils/schemes.py:32-35): it subscripts a `dataclasses.field` object, so it fails whenever it is called. It has no behaviour to model.
- Display fields of a scheme: name, description, benefit, URLs, documents, tags, `match_score` and `reasons` are carried as opaque values. Nothing reads them, and the matcher does not rank by score.
- Keyword arguments: `match_subsidy_schemes`'s arguments are bundled into a `Household` record in the specifications. The dictionary that `get_scheme_filter_options` returns is a three-field `FilterOptions` record.
- Dead guards: the fallback for a non-positive tariff and the `max(…, 0.0)` in the bill converter are modelled, but they can never fire, since every tariff is positive (`ProviderTariffsValues`).
- Other code: the vendor list re-exported by `app/utils/__init__.py` is not part of this model. Neither are the Flask routes, the ORM models and the browser scripts: these are request handling, persistence and UI.
