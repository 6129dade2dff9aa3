# ENGIPIT geotechnical core in Dafny

This project models two parts of ENGIPIT, a foundation-design application, and proves properties of both.

The first part is the calculation engine in `app.py`. It is made of three stateless calculators, plus the arithmetic the controller builds on top of them:

- the shallow-foundation calculator: Terzaghi bearing-capacity factors, ultimate and allowable bearing capacity, and applied pressure;
- the deep-foundation calculator: pile end bearing, skin friction, combined capacity and pile-group efficiency;
- the retaining-wall calculator: the Rankine coefficients Ka and Kp, and the resultant active thrust with its line of action;
- the controller arithmetic: safety factors with an infinite sentinel for zero demand, and the pile-group capacity with its fixed divisor of 2.5.

The second part is the project data model in `project_models.py`. It covers the following operations:

- layer thickness;
- `add_layer`, which appends a layer and then stably sorts by top depth;
- the first-match layer lookup over half-open depth intervals;
- borehole lookup by id;
- site-wide averaging of soil properties;
- the re-parenting `add_*` operations;
- the choice of the active (most recent) soil investigation.

Modules:

- `Transcendental`: the tangent (in degrees) and the exponential enter as a parameter record, `Transcendentals`. The facts the proofs rely on are stated in the ghost predicates `Valid` and `Complementary`:
  - tan 0 = 0 and tan 45 = 1;
  - tan is non-negative and strictly increasing on [0, 90);
  - exp 0 = 1, and exp x ≥ 1 for x ≥ 0;
  - tan a · tan b = 1 when a + b = 90.

  A rational witness shows that both predicates can hold together. Every theorem about the engine is stated for any record that satisfies them. The model does not assume a particular floating-point tangent.
- `Soils`: the soil record and Nq, which the shallow and the deep calculators share.
- `Shallow`, `Deep` and `RetainingWall`: the three calculators.
- `Design`: the arithmetic lifted from the controller's `_calculate_*` methods.
- `Search`: the first-match search behind `project_models.py`'s `for … return` lookups.
- `Boreholes`, `Investigations` and `Projects`: the data model. It uses immutable records, and each mutating method returns the updated record.

The pile type is a string in `app.py`. Any string other than `"driven"` takes the bored-pile branch, so the model uses the enumeration `{Driven, Bored}`. Dates are optional natural numbers counting ticks from `datetime.min`. A missing date maps to 0, which is `datetime.min`, exactly as the `max` key in `project_models.py` does.

## Model

| member | source | states |
|---|---|---|
| Soils.Nq | app.py:199-200 | Nq ≥ 1, with Nq = 1 exactly for a frictionless soil and Nq > 1 for any positive friction angle |
| Shallow.BearingFactors | app.py:187-208 | the factors use the shared Nq; at φ = 0 they are exactly (5.14, 1, 0); for φ > 0, Nc·tan φ = Nq − 1; Nc > 0, Nγ ≥ 0, and Nγ > 4·tan φ when φ > 0 |
| Shallow.UltimateBearingCapacity | app.py:211-241 | for φ = 0, qu reduces to 5.14·c + γ·Df; with non-negative inputs qu is never below the overburden γ·Df |
| Shallow.UltimateIgnoresLength | app.py:211-241 | the footing length does not change the ultimate capacity |
| Shallow.UltimateMonotone | app.py:233-241 | more cohesion, deeper embedment or a wider footing never lowers qu (for γ ≥ 0) |
| Shallow.AllowableBearingCapacity | app.py:244-255 | qa·FOS = qu, and 0 < qa < qu whenever FOS > 1 and qu > 0 |
| Shallow.AppliedPressure | app.py:258-271 | pressure·(B·L) = load, which needs B·L ≠ 0; for a positive area the pressure is positive exactly when the load is |
| Deep.EndBearing | app.py:278-311 | for φ = 0 the end bearing is (9·c + γ·L)·π(D/2)², with Nq = 1; it is non-negative for non-negative c, γ and L |
| Deep.InterfaceAngle | app.py:342-343 | the interface angle δ stays a valid friction angle and never exceeds φ |
| Deep.SkinFriction | app.py:314-351 | for φ = 0 the shaft resistance is c·(πD)·L for either pile type; it is non-negative for non-negative inputs |
| Deep.PileCapacity | app.py:354-389 | Qu = Qb + Qs, Qa·FOS = Qu, and 0 < Qa < Qu whenever FOS > 1 and Qu > 0 |
| Deep.EndBearingIgnoresPileType | app.py:278-311 | the end bearing is the same for driven and bored piles |
| Deep.DrivenAtLeastBored | app.py:336-351 | a driven pile has the same end bearing as a bored one and at least its ultimate capacity, strictly more when φ, γ, L and D are all positive |
| Deep.EfficiencyOfRatio | app.py:404-414 | the efficiency is at most 1; it is 1 from s/d = 6 on and below 1 before; it is 0.7 at s/d = 3; it is positive for a positive ratio |
| Deep.GroupEfficiency | app.py:392-414 | bounded by 1, positive for a positive s/d ratio, equal to 1 exactly when s/d ≥ 6, and 0.7 at s = 3d |
| Deep.EfficiencyIsLowerEnvelope | app.py:404-414 | the three branches and the cap are one continuous function: the minimum of 0.7·r/3, 0.7 + 0.3·(r − 3)/3 and 1 |
| Deep.EfficiencyMonotone | app.py:404-414 | a wider spacing ratio never lowers the efficiency |
| Deep.EfficiencyLipschitz | app.py:404-414 | between two ratios the efficiency rises by at most 0.7/3 per unit of ratio, so the branches meet without a jump |
| Deep.GroupEfficiencyIgnoresPileCount | app.py:392-414 | the number of piles does not change the efficiency |
| RetainingWall.ActiveCoefficient | app.py:421-432 | 0 < Ka ≤ 1, and Ka = 1 exactly when φ = 0 |
| RetainingWall.PassiveCoefficient | app.py:435-446 | Kp ≥ 1, and Ka < Kp for every positive friction angle |
| RetainingWall.ActivePassiveReciprocal | app.py:431-446 | Ka·Kp = 1 |
| RetainingWall.ActiveForce | app.py:449-487 | the total is the soil thrust plus the surcharge thrust, and the location times the total equals the sum of their moments about the base (H/3 and H/2 lever arms), which needs a non-zero total |
| RetainingWall.ThrustPositive | app.py:466-477 | for a wall retaining soil of positive weight under a non-negative surcharge the total thrust is positive, so the division is defined |
| RetainingWall.LocationBetweenThirdAndHalf | app.py:479-484 | the line of action lies at H/3 ≤ z < H/2, and strictly above H/3 under a positive surcharge |
| RetainingWall.ActiveForceNoSurcharge | app.py:466-487 | without surcharge the thrust is 0.5·Ka·γ·H² acting at exactly H/3 |
| RetainingWall.SurchargeRaisesThrust | app.py:466-487 | a larger surcharge strictly raises both the thrust and its point of application |
| RetainingWall.ActiveForceIgnoresCohesionAndThickness | app.py:449-487 | cohesion and wall thickness do not enter the active thrust |
| Design.SafetyFactor | app.py:541 | the sentinel appears exactly when the demand is not positive; otherwise ratio·demand = capacity, and ratio ≥ 1 (the SAFE label) exactly when demand ≤ capacity |
| Design.ShallowFoundation | app.py:530-541 | the footing check uses FOS 3: qa·3 = qu, and pressure·area = load; the margin is unbounded exactly for a non-positive load, and otherwise margin·load = qa·area |
| Design.SinglePile | app.py:592-597 | the pile check uses FOS 2.5; the margin is unbounded exactly for a non-positive load, and otherwise margin·load·2.5 = Qu |
| Design.GroupAllowable | app.py:656 | the group allowable capacity times 2.5 is the group ultimate capacity |
| Design.GroupAllowableVersusSingles | app.py:647-656 | with single piles checked at factor FOS, the group allowable is below n single allowables exactly when efficiency·FOS < 2.5 |
| Design.PileGroup | app.py:647-662 | the group is n bored piles at FOS 2.5; the group ultimate Qu_group is the single ultimate times n times the efficiency, and the group allowable is Qu_group divided by 2.5; load per pile times n is the total load; the margin is unbounded exactly for a non-positive total load; and with a positive Qu the group allowable is below n single allowables exactly when the efficiency is below 1 |
| Boreholes.Thickness | project_models.py:70-73 | top plus thickness is bottom, and the thickness is positive exactly when top < bottom |
| Boreholes.InsertByTop | project_models.py:121-124 | one insertion step of the stable sort adds exactly the new layer (length and multiset) |
| Boreholes.InsertSorted | project_models.py:121-124 | inserting a layer into a list sorted by top depth keeps it sorted |
| Boreholes.InsertWithTop | project_models.py:121-124 | insertion appends the new layer to the layers sharing its top and changes no other top group |
| Boreholes.SortByTop | project_models.py:121-124 | the sort returns a permutation of its input, sorted by top depth, with every group of equal tops in its original order |
| Boreholes.StableSortUnique | project_models.py:121-124 | a sorted list whose equal-top groups match another list's is unique, so the stable sort is fully determined |
| Boreholes.SortSortedIsIdentity | project_models.py:121-124 | sorting an already sorted list changes nothing |
| Boreholes.AddLayer | project_models.py:121-124 | `add_layer` adds one layer, keeps all old layers (as a multiset), leaves the list sorted, places the new layer after the old layers with the same top, and changes no other field |
| Boreholes.AddLayerToSortedInserts | project_models.py:121-124 | on a sorted borehole, `add_layer` is one ordered insertion |
| Boreholes.LayerAtDepth | project_models.py:126-139 | no result exactly when no layer holds the depth; otherwise the result is the first layer, in list order, whose half-open interval holds it |
| Boreholes.BottomsIncrease | project_models.py:126-139 | in a contiguous profile the layer bottoms increase down the list |
| Boreholes.BoundaryBelongsToLowerLayer | project_models.py:136-139 | in a contiguous profile the depth where one layer ends is found in the next layer |
| Search.FirstWhere | project_models.py:191-194 | the index is that of the first element satisfying the test, or the length when none does |
| Search.FirstWhereUnique | project_models.py:191-194 | any index with the first-match property is the one found |
| Investigations.AddBorehole | project_models.py:185-187 | the borehole is appended at the end; earlier boreholes and other fields are unchanged |
| Investigations.GetBorehole | project_models.py:189-194 | no result exactly when no id matches; otherwise the first borehole with that id |
| Investigations.AddThenGetBorehole | project_models.py:185-194 | after an addition, lookup still returns an earlier match if there was one, the new borehole if only it matches, and nothing otherwise |
| Investigations.GetAverageProperties | project_models.py:196-232 | a property's key is present exactly when some counted layer has a value for it; its value is the mean of those values, taken over all boreholes' layers in order |
| Investigations.CollectLayer | project_models.py:213-224 | one layer extends each property's collection by its value when the layer is counted and the value is present |
| Investigations.MeansOf | project_models.py:226-230 | each non-empty list yields its mean, and an empty list yields no key |
| Investigations.MeanWithinBounds | project_models.py:226-230 | an average lies between any lower and upper bound of the values averaged |
| Investigations.TouchingLayerCounted | project_models.py:215-217 | a layer that only touches the depth window at an end is still averaged |
| Projects.AddSoilInvestigation | project_models.py:369-372 | the investigation is re-parented to the project and appended; earlier entries and other fields are unchanged |
| Projects.AddFoundationDesign | project_models.py:374-377 | the design is re-parented to the project and appended; earlier entries and other fields are unchanged |
| Projects.AddsPreserveOwned | project_models.py:369-377 | if every child points to the project, both additions keep it so |
| Projects.ActiveIndex | project_models.py:383-384 | the position holds a maximal date key and no earlier position ties it, which is the element Python's `max` picks |
| Projects.ActiveIndexUnique | project_models.py:383-384 | any first-maximum position is the one found |
| Projects.GetActiveSoilInvestigation | project_models.py:379-384 | no result exactly for an empty list; otherwise an investigation of the project whose date key is maximal, and every earlier entry has a strictly smaller key, so ties go to the first entry as with Python's `max` |
| Projects.NewestBecomesActive | project_models.py:369-384 | an investigation dated after all others becomes active once added |
| Projects.NotNewerKeepsActive | project_models.py:369-384 | adding an investigation dated no later than the active one, an undated one in particular, leaves the active one unchanged, because ties go to the earlier entry |
| Projects.UndatedKeepsFirst | project_models.py:379-384 | when nothing is dated, the first investigation is active |

## Left out

- Floating point: every quantity is an exact real. `math.tan`, `math.exp` and `math.radians` are modelled only by the properties listed above. Numeric values such as Nq(30°) and the rounding for display are not modelled.
- The radians conversion is folded into the degree tangent `tanDeg`. π is the literal Python uses, and it appears only in Nq's exponent and in pile areas and perimeters.
- Friction angles are taken in [0, 90). The input form in `app.py` allows 0 to 45; at 90 degrees the tangent is undefined.
- The VIKTOR parametrization, the views, the plots and the SAFE/UNSAFE labels of `app.py` are presentation. The SAFE test appears only as the `ratio ≥ 1` equivalence of `Design.SafetyFactor`.
- The `_calculate_retaining_wall` controller is not modelled separately: it only displays Ka, Kp and the active force.
- `to_dict`, `create_example_project`, `examples.py` and `project_viktor.py` are storage formatting, fixtures, console output and platform glue.
- Dictionaries of arbitrary values, such as `representative_properties`, `design_parameters` and `results`, are maps from names to reals.
- `Boreholes.AddLayer`, `Investigations.AddBorehole`, `Projects.AddSoilInvestigation` and `Projects.AddFoundationDesign` return updated values instead of mutating objects. Python's object aliasing is not modelled: re-parenting an investigation also changes it for every other holder of the same object.
- `Design.ShallowFoundation`, `Shallow.AppliedPressure`, `Design.PileGroup`, `Deep.GroupEfficiency`, `Shallow.AllowableBearingCapacity`, `Deep.PileCapacity` and `Deep.Combine` require a non-zero area, diameter, pile count or factor of safety. In `app.py` these divisions raise `ZeroDivisionError` (for the factor of safety at app.py:255 and app.py:387), which the model treats as outside the operation's domain. The factors of safety `app.py` passes are the constants 3.0 and 2.5.
- `Design.SinglePile` and `Design.PileGroup` do not model the utilization percentages the controller displays (app.py:622 and app.py:693). These divide by the single-pile allowable capacity and raise `ZeroDivisionError` when it is 0. The input form's ranges (unit weight ≥ 10, pile length ≥ 5, diameter ≥ 0.3) make the end bearing positive, so that case is out of the form's reach.
- `RetainingWall.ActiveForce` likewise requires a non-zero total thrust. `RetainingWall.ThrustPositive` shows that this holds for every wall that retains soil of positive weight.
