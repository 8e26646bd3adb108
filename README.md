# MEtoolbox in Dafny

A verified model of the calculation core of MEtoolbox, a Python toolbox for
mechanical design. MEtoolbox sizes helical compression (push), extension and
torsion springs, spur gears and a two-stage gear transmission, runs fatigue
analyses (endurance limit, Marin factors, stress concentration, failure
criteria), and designs bolted joints (metric and UN bolts, threaded fasteners
and their stiffness, bolt patterns under direct, torsional and bending loads).

The model keeps the repository's own split. Formulas that only compute become
Dafny functions. Objects whose attributes are updated in place (the spring
classes, the gear sizing object) become Dafny classes with `modifies` setters.
Python exceptions become `Common.Error` values inside a `Result`. `None`
becomes an `Option`. Arithmetic is over `real`. Square roots, real powers,
logarithms, tangents and table interpolation are passed in as function
parameters, and where a property needs it they are constrained by predicates
such as `FailureCriteria.IsSquareRoot`.

## Model

| member | source | states |
|---|---|---|
| Helpers.PercentToDecimal | me_toolbox/tools/helpers.py:140-143 | a value of 1 or more is a percentage (result times 100 gives it back), a value below 1 is returned unchanged |
| Helpers.PercentAndDecimalAgree | me_toolbox/tools/helpers.py:140-143 | for p in [1, 100) the spellings p and p/100 normalise to the same fraction, which is below 1 |
| Helpers.PercentToDecimalIdempotent | me_toolbox/tools/helpers.py:140-143 | below 100 percent, normalising twice gives what normalising once gives |
| Helpers.PercentToDecimalList | me_toolbox/tools/helpers.py:144-153 | the list branch returns a list of the same length whose every element follows the scalar rule |
| Helpers.Convert | me_toolbox/tools/helpers.py:84-89 | a value that is neither a float nor a list is a ValueError; a float is scaled; a list is scaled element by element, keeping its length |
| Helpers.ConversionsRejectOthers | me_toolbox/tools/helpers.py:76-137 | all four conversions refuse any other type with ValueError |
| Helpers.InchMillimetreRoundTrip | me_toolbox/tools/helpers.py:108-137 | inches to millimetres and back returns the float or list unchanged |
| Helpers.SpringRateRoundTripShrinks | me_toolbox/tools/helpers.py:76-105 | the lbs/in and N/mm conversions are not inverse: a round trip multiplies by 0.99925 and changes every non-zero rate |
| Helpers.FirstUnknown | me_toolbox/tools/helpers.py:51-55 | the index of the first keyword that is not a field, with every keyword before it a field; none exactly when all keywords are fields |
| Helpers.ParseInput | me_toolbox/tools/helpers.py:30-72 | the loops raise exactly the verdict of ParseVerdict (unexpected keyword first, then one or several missing fields) and leave the attributes ParsedAttributes describes, including those set before an error |
| Helpers.Contains | me_toolbox/tools/helpers.py:52-60 | the dictionary membership tests `key in fields` and `field not in kwargs` are true exactly when some item has that key |
| Helpers.SetAllKeys | me_toolbox/tools/helpers.py:51-53 | setattr over a keyword list adds exactly its keys and keeps every other attribute |
| Helpers.SetAllLastWins | me_toolbox/tools/helpers.py:51-53 | with distinct keys every keyword ends with the value passed for it |
| Helpers.DefaultsNotGiven | me_toolbox/tools/helpers.py:60-63 | a default is never applied to a field that was given as a keyword |
| Helpers.MissingEmptyMeansCovered | me_toolbox/tools/helpers.py:59-65 | when no field is missing, every field was given or has a default |
| Helpers.ParsedCoversFieldsAndKeywords | me_toolbox/tools/helpers.py:30-72 | when parse_input returns normally every field is an attribute and every keyword keeps the caller's value |
| LegacyHelpers.ForceRoundTrips | tools/helpers.py:9-14 | pound-force to newtons and back, and newtons to pound-force and back, are the identity |
| LegacyHelpers.LengthRoundTrip | tools/helpers.py:17-22 | inches to millimetres and back is the identity |
| LegacyHelpers.ConversionsMonotone | tools/helpers.py:9-22 | each conversion is a positive scaling: it keeps order and sign |
| SpringFormulas.SpringIndex | me_toolbox/springs/spring.py:28-38 | C times d gives D back, and C is positive for positive diameters |
| SpringFormulas.IndexAboveOne | me_toolbox/springs/spring.py:28-38 | a coil wider than its wire has an index above 1 |
| SpringFormulas.RateFactorPositive | me_toolbox/springs/spring.py:113-121 | the coil-independent part of the Castigliano stiffness is positive for positive G, d, D |
| SpringFormulas.RateTimesCoils | me_toolbox/springs/spring.py:113-131 | K times Na, from either formula, is the same fixed rate factor |
| SpringFormulas.StiffnessInverse | me_toolbox/springs/spring.py:113-131 | calc_active_coils applied to calc_spring_constant(Na) gives Na back, and the other way round |
| SpringFormulas.StiffnessDecreasesWithCoils | me_toolbox/springs/spring.py:113-121 | more active coils give a strictly smaller spring constant |
| SpringFormulas.DeflectionIsHooke | me_toolbox/springs/helical_push_spring.py:271-281 | the spring constant times the deflection under a force is that force |
| SpringFormulas.StaticFactorBelowWahl | me_toolbox/springs/helical_push_spring.py:223-239 | for every index above 1 the set-removed factor Ks is below the Wahl factor Kw |
| SpringFormulas.CurvatureFactor | me_toolbox/springs/helical_torsion_spring.py:280-287 | k times 4C(C-1) equals 4C^2 - C - 1 (the same factor as hook_KA at me_toolbox/springs/extension_spring.py:150-153) |
| SpringFormulas.CurvatureFactorAboveOne | me_toolbox/springs/helical_torsion_spring.py:280-287 | above index 1 the curvature factor exceeds 1 |
| SpringFormulas.MaxShearStressLinear | me_toolbox/springs/spring.py:78-87 | the maximum shear stress is proportional to the force and to the k factor |
| SpringFormulas.SetRemovedLowersStress | me_toolbox/springs/helical_push_spring.py:252-260 | with the set removed (Ks instead of Kw) the same load gives a strictly lower stress |
| SpringFormulas.CheckedShearYieldStrength | springs/spring.py:32-44 | ValueError exactly outside (0, 100]; otherwise a fraction of Sut |
| SpringFormulas.ShearStrengthSpellings | me_toolbox/springs/spring.py:45-55 | 45 and 0.45 give the same shear yield strength, which matches the checked revision and lies below Sut; Ssu is 0.67 Sut |
| SpringFormulas.CheckedAgreesWithHelper | springs/Spring.py:24-36 | the range-checked revisions agree with the percent-helper revision wherever they return, and refuse p <= 0 and p > 100 |
| SpringFormulas.WeightFormulasAgree | me_toolbox/springs/spring.py:100-111 | the area-times-circumference weight equals the closed form 0.25 rho pi^2 d^2 D Na of Springs/HelicalPushSpring.py:115-117 and scratch_1.py:4-8 |
| SpringFormulas.Lower | Springs/HelicalPushSpring.py:25 | ASCII lower-casing keeps the length, maps upper-case letters down and leaves the rest |
| SpringFormulas.SolidLength | me_toolbox/springs/helical_push_spring.py:305-319 | an unknown end type fails with TypeError (None + Na in the eager dict); a known one gives a length |
| SpringFormulas.SolidLengthByEndType | me_toolbox/springs/helical_push_spring.py:283-319 | with Nt = end coils + Na: plain d(Na+1), plain and ground d(Na+1), squared or closed d(Na+3), squared and ground d(Na+2) |
| SpringFormulas.GroundEndsSaveOneWire | me_toolbox/springs/helical_push_spring.py:290-318 | grinding squared ends removes exactly one wire diameter from the solid length |
| SpringFormulas.FsolidBranchesAgree | me_toolbox/springs/helical_push_spring.py:322-363 | with an estimated free length, K (L0 - Ls) equals (1 + zeta) F: both Fsolid branches agree |
| PushSprings.PushSpring.FsolidIsCompressionForce | me_toolbox/springs/helical_push_spring.py:321-363 | on a spring whose estimated free length is Fsolid / K + Ls, Fsolid is K (L0 - Ls) whichever way L0 came about, and (1 + zeta) F when it was estimated |
| PushSprings.PushSpring.TotalCoils | me_toolbox/springs/helical_push_spring.py:283-303 | Nt exists exactly for a known end type and exceeds Na by that end type's end coils |
| PushSprings.PushSpring.SetFreeLength | me_toolbox/springs/helical_push_spring.py:349-359 | the flag records whether a value was given; a given value is stored verbatim; an estimate needs a known end type (TypeError otherwise) and satisfies L0 = (1 + zeta) F / K + Ls; coils and rate stay |
| PushSprings.PushSpring.CalcFreeLength | me_toolbox/springs/helical_push_spring.py:361-363 | Fsolid / K + Ls changes nothing; without a given length it is the estimate (1 + zeta) F / K + Ls, and with a given length it gives that length back (K (L0 - Ls) / K + Ls = L0); either way it fails exactly when the end type is unknown, with TypeError |
| PushSprings.PushSpring.SetSpringConstant | me_toolbox/springs/helical_push_spring.py:203-220 | a given rate is kept, the coils become calc_active_coils of it and the free length is re-estimated (flag reset); without a value the rate is recomputed and coils and free length stay; coils and rate stay linked |
| PushSprings.PushSpring.SetActiveCoils | me_toolbox/springs/helical_push_spring.py:175-192 | given coils are kept, the rate becomes calc_spring_constant of them and the free length is re-estimated (flag reset); without a value the coils are recomputed from the unchanged rate |
| PushSprings.PushSpring.SetWireDiameter | me_toolbox/springs/helical_push_spring.py:133-143 | while constructing only the diameter changes; afterwards the rate is kept, the coils are recomputed from it with the new d, the free length is re-estimated and the given-length flag is cleared |
| PushSprings.PushSpring.SetSpringDiameter | me_toolbox/springs/helical_push_spring.py:154-164 | the same cascade for D: the rate is kept and the coils recomputed after construction, nothing cascades while constructing |
| PushSprings.PushSpring.SortCoilsAndRate | me_toolbox/springs/helical_push_spring.py:498-520 | neither or both of coils and rate is a ValueError; otherwise the given one is stored and the other linked to it by Castigliano's formula |
| PushSprings.PushSpring.Build | me_toolbox/springs/helical_push_spring.py:45-67 | an unknown end type (after lower-casing) is a ValueError before anything else; then check_design runs and its TypeError (a buckling lookup that failed) surfaces; success exactly for a known end type, one of coils and rate and no such TypeError, leaving a linked spring with the given values and the free-length flag set as given |
| PushSprings.PushSpring.RunCheckDesign | me_toolbox/springs/helical_push_spring.py:66 | the constructor's check_design call on the stored fields drops the verdict and fails, with TypeError, exactly when the buckling lookup is consulted and failed |
| PushSprings.PushSpring.BuildLegacy | springs/HelicalPushSpring.py:44-69 | the sorter and the free length run before the end-type check, so an unknown end type with one of coils and rate ends in TypeError, never in the ValueError of line 61; the final check_design adds its TypeError; success exactly for a known end type, one of coils and rate and no such TypeError, with the same stored values as Build |
| PushSprings.CheckDesign | me_toolbox/springs/helical_push_spring.py:69-122 | True exactly when no range check fails (index [4,12] with the set removed else [3,12], coils [3,15], zeta >= 0.15, no buckling, natural frequency above 20 times the working one); only a failed buckling lookup raises (TypeError) |
| PushSprings.RangeChecksOnlyAdvise | me_toolbox/springs/helical_push_spring.py:76-93 | the index check fails exactly for a concrete C above 12 or below 4 (set removed) or 3, and symbolic values never fail a range check |
| PushSprings.PushSpring.Init | me_toolbox/springs/spring.py:13-22 | while constructing, force, diameters and shear modulus are stored as given |
| OldPushSprings.Make | Springs/HelicalPushSpring.py:19-29 | the end type is stored lower-cased; ValueError exactly when it is not one of the four known kinds |
| OldPushSprings.ActiveCoils | Springs/HelicalPushSpring.py:52-60 | Na is recomputed from the stored rate; a spring built without a rate fails with TypeError |
| OldPushSprings.RateRoundTrip | Springs/HelicalPushSpring.py:52-60 | CalcSpringConstant of the recomputed Na returns the stored spring constant (lines 119-122) |
| OldPushSprings.Solid | Springs/HelicalPushSpring.py:89-109 | without a rate the solid length is a TypeError; with one it exists exactly for a known end type |
| OldPushSprings.SolidOfConstructed | Springs/HelicalPushSpring.py:89-109 | a constructed spring with a rate has a solid length of d(Na+1), d(Na+3) or d(Na+2) by end type |
| OldPushSprings.ShearStressBySetRemoval | Springs/HelicalPushSpring.py:62-81 | with the set removed (Ks) the working stress is strictly lower than with Kw |
| OldPushSprings.OldWeight | Springs/HelicalPushSpring.py:115-117 | the weight fails exactly when no rate is stored |
| OldPushSprings.OldWeightAgrees | Springs/HelicalPushSpring.py:115-117 | the closed-form weight equals the area-times-circumference weight of me_toolbox/springs/spring.py:100-111 |
| ExtensionSprings.FreeLengthPerCoil | springs/extension_spring.py:320-327 | the free length is 2 D plus (body coils - 1) wire diameters, so each extra body coil adds exactly one wire diameter |
| ExtensionSprings.ExtensionDeflection | springs/extension_spring.py:347-355 | the deflection times the rate, plus the initial tension, gives back the force |
| ExtensionSprings.NoStretchBelowTension | springs/extension_spring.py:347-355 | with a positive rate the spring stretches (positive deflection) exactly when the force exceeds the initial tension |
| ExtensionSprings.BendingYieldStrength | springs/extension_spring.py:40-51 | Sy fails with ValueError exactly when the bending yield percentage lies outside (0, 100]; otherwise, for a positive Sut, it lies in (0, Sut] |
| ExtensionSprings.BendingYieldSpellings | springs/ExtensionSpring.py:35-45 | in both revisions a percentage from 1 below 100 and its fraction give the same Sy, and exactly 1 is read as one per cent |
| ExtensionSprings.ExtensionSpring.SetFreeLength | springs/extension_spring.py:308-327 | a given length is stored; otherwise the hook-and-body formula at the current body coils; with no body coils yet the formula fails with TypeError and nothing changes |
| ExtensionSprings.ExtensionSpring.SetSpringConstant | springs/extension_spring.py:207-237 | a given rate deletes the body coils (AttributeError when they were never created), then the active coils follow the rate by Castigliano's formula, the body coils are active less G/E and the free length is recomputed; with no rate it is Castigliano's rate of the current active coils |
| ExtensionSprings.ExtensionSpring.SetActiveCoils | springs/extension_spring.py:118-151 | given coils are stored and the rate, body coils and free length follow them; without a value the coils are body coils plus G/E when body coils exist and the coils of the current rate otherwise |
| ExtensionSprings.ExtensionSpring.SetBodyCoils | springs/extension_spring.py:166-191 | given body coils are stored, the active coils become body plus G/E and rate and free length follow; without a value the body coils are the active coils less G/E |
| ExtensionSprings.ExtensionSpring.SetWireDiameter | springs/extension_spring.py:62-73 | the diameter is stored; after construction the active coils are re-derived from the unchanged body coils and the rate and free length follow the new diameter; during construction nothing else changes |
| ExtensionSprings.ExtensionSpring.SetSpringDiameter | springs/extension_spring.py:84-95 | the same cascade as the wire diameter setter, for the coil diameter |
| ExtensionSprings.ExtensionSpring.SortCoils | springs/extension_spring.py:440-478 | none or more than one of active coils, body coils and rate is a ValueError; exactly one given leaves the three linked (body = active - G/E, rate = Castigliano's rate of the active coils) and keeps the given value; the rate alone fails with AttributeError on a spring that has no body coils |
| ExtensionSprings.ExtensionSpring.Build | springs/extension_spring.py:11-34 | construction succeeds exactly when one of active and body coils is given and no rate; then the spring is linked, keeps the given coils, and stores the given free length or the formula's |
| MeExtensionSprings.BodyCoils | me_toolbox/springs/extension_spring.py:121-124 | the body coils plus G/E give back the active coils |
| MeExtensionSprings.FreeLengthAgreesWithStored | me_toolbox/springs/extension_spring.py:106-109 | the derived free length equals the older revisions' stored formula at the matching body coils, and grows by one wire diameter per active coil |
| MeExtensionSprings.Property | me_toolbox/springs/extension_spring.py:106-129 | only body coils and free length can be read; solid length, Fsolid and total coils raise NotImplementedError |
| MeExtensionSprings.CheckDesign | me_toolbox/springs/extension_spring.py:73-104 | the design is good exactly when a concrete index lies in [3, 16], concrete active coils lie in [3, 15] and, when density and working frequency are known, the natural frequency exceeds 20 times the working frequency |
| MeExtensionSprings.IndexRangeWiderThanPushSpring | me_toolbox/springs/extension_spring.py:81-86 | an index in (12, 16] passes the extension-spring check while the compression-spring check flags it |
| MeExtensionSprings.HookYieldStrength | me_toolbox/springs/extension_spring.py:131-147 | a percentage of 1 or more is divided by 100, a fraction is used as is, then scaled by Sut; a symbolic percentage yields a symbolic strength |
| MeExtensionSprings.HookYieldSpellings | me_toolbox/springs/extension_spring.py:131-138 | the percentage p and the fraction p/100 give the same hook strength, and it agrees with the body's shear yield strength formula |
| MeExtensionSprings.HookKA | me_toolbox/springs/extension_spring.py:149-153 | the bending correction at the hook is (4 C1^2 - C1 - 1) / (4 C1 (C1 - 1)) for C1 = 2 r1 / d, stated as the product identity |
| MeExtensionSprings.HookKB | me_toolbox/springs/extension_spring.py:155-159 | the torsion correction at the hook bend is (4 C2 - 1) / (4 C2 - 4) for C2 = 2 r2 / d, stated as the product identity |
| MeExtensionSprings.HookIndexAboveOne | me_toolbox/springs/extension_spring.py:152 | a radius above the wire radius gives an index above 1 |
| MeExtensionSprings.HookFactorsAboveOne | me_toolbox/springs/extension_spring.py:149-159 | with both radii above the wire radius both hook factors exceed 1, so they amplify the stress |
| MeExtensionSprings.NormalStressLinear | me_toolbox/springs/extension_spring.py:166-176 | the hook normal stress scales linearly with the force |
| MeExtensionSprings.StaticSafetyFactor | me_toolbox/springs/extension_spring.py:199-221 | each factor times its maximum stress is its yield strength; any zero stress is a ZeroDivisionError |
| MeExtensionSprings.SafeMeansBelowYield | me_toolbox/springs/extension_spring.py:217-221 | each factor is at least 1 exactly when its stress does not exceed its yield strength |
| MeExtensionSprings.AltForce | me_toolbox/springs/extension_spring.py:240 | the alternating force is non-negative and twice it is the force range |
| MeExtensionSprings.MeanForce | me_toolbox/springs/extension_spring.py:241 | twice the mean force is the sum of the extreme forces |
| MeExtensionSprings.CycleStressesAsWritten | me_toolbox/springs/extension_spring.py:239-273 | a constant load is a ZeroDivisionError; otherwise the hook stresses at the alternating force, each mean stress the alternating one scaled by mean/alt, and the body stresses computed with the hook factor KB |
| MeExtensionSprings.BodyFactorMismatch | me_toolbox/springs/extension_spring.py:272-273 | for d = 1, D = 10, r2 = 2.5 the body alternating stress as written differs from the body shear formula with the Wahl factor |
| MeExtensionSprings.CycleStressesCorrected | me_toolbox/springs/extension_spring.py:183-187 | the corrected split raises ZeroDivisionError exactly for a constant load; its body stresses use the Wahl factor Kw of the body's static stress |
| MeExtensionSprings.CorrectedStressesAreLoadStresses | me_toolbox/springs/extension_spring.py:243-273 | every mean stress is the stress of the mean force and every alternating stress that of the alternating force |
| ExtensionSprings.ExtensionSpring.Init | springs/extension_spring.py:19-29 | while constructing, force, initial tension, diameters and moduli are stored as given and no body coils exist yet |
| TorsionSprings.TorsionRate | me_toolbox/springs/helical_torsion_spring.py:269-277 | the rate times the active coils is the one-coil stiffness d^4 E / (10.8 D) |
| TorsionSprings.TorsionActiveCoils | me_toolbox/springs/helical_torsion_spring.py:184-188 | without body coils, the active coils times the rate is the one-coil stiffness |
| TorsionSprings.TorsionStiffnessInverse | me_toolbox/springs/helical_torsion_spring.py:177-191 | rate from coils and coils from rate are exact inverses of each other, both ways, for a positive geometry |
| TorsionSprings.TorsionRateDecreases | me_toolbox/springs/helical_torsion_spring.py:269-277 | adding active coils strictly lowers the rate |
| TorsionSprings.MaxStressLinear | me_toolbox/springs/helical_torsion_spring.py:298-307 | the bending stress Ki 32 M / (pi d^3) is additive in the moment |
| TorsionSprings.CycleStresses | me_toolbox/springs/helical_torsion_spring.py:386-392 | alternating plus mean stress is the stress at the maximum moment, mean minus alternating the stress at the minimum moment |
| TorsionSprings.HelixShrinksUnderLoad | me_toolbox/springs/helical_torsion_spring.py:349-353 | winding up the body under a positive deflection shrinks the helix diameter, keeping it positive |
| TorsionSprings.HelicalTorsionSpring.Init | me_toolbox/springs/helical_torsion_spring.py:44-53 | the given values are stored; the force is the moment over the radius when a radius is given and None otherwise; no body coils exist yet |
| TorsionSprings.HelicalTorsionSpring.SetSpringConstant | me_toolbox/springs/helical_torsion_spring.py:247-277 | a given rate deletes the body coils (AttributeError when they were never created), the active coils follow the rate and the body coils are active less the legs' coils; without a value the rate follows the active coils |
| TorsionSprings.HelicalTorsionSpring.SetActiveCoils | me_toolbox/springs/helical_torsion_spring.py:157-191 | given coils are stored and the rate and body coils follow; otherwise the coils are body plus leg coils when body coils exist, and come from the rate otherwise |
| TorsionSprings.HelicalTorsionSpring.SetBodyCoils | me_toolbox/springs/helical_torsion_spring.py:206-231 | given body coils are stored, the active coils become body plus leg coils and the rate follows; without a value the body coils are active less leg coils |
| TorsionSprings.HelicalTorsionSpring.SetWireDiameter | me_toolbox/springs/helical_torsion_spring.py:115-125 | the diameter is stored; after construction the coils stay (the leg coils do not involve d) and the rate follows the new diameter |
| TorsionSprings.HelicalTorsionSpring.SetSpringDiameter | me_toolbox/springs/helical_torsion_spring.py:136-146 | the diameter is stored; after construction the body coils stay, the active coils become body plus the leg coils at the new diameter and the rate follows |
| TorsionSprings.HelicalTorsionSpring.SortCoils | me_toolbox/springs/helical_torsion_spring.py:58-97 | none or more than one of active coils, body coils and rate is a ValueError; exactly one leaves the three linked and keeps the given value; the rate alone fails with AttributeError on a spring without body coils |
| TorsionSprings.HelicalTorsionSpring.Build | me_toolbox/springs/helical_torsion_spring.py:13-56 | construction succeeds exactly when one of active and body coils is given and no rate, and leaves a linked spring holding the given coils |
| TorsionSprings.HelicalTorsionSpring.AngularDeflection | me_toolbox/springs/helical_torsion_spring.py:331-347 | the total deflection is over the active coils, the body deflection over the body coils; body deflection without body coils is a TypeError |
| TorsionSprings.HelicalTorsionSpring.DeflectionSplit | me_toolbox/springs/helical_torsion_spring.py:309-347 | on a linked spring total minus body deflection is the legs' share, and the total deflection times the rate is the moment |
| TorsionSprings.HelicalTorsionSpring.ClearanceOf | me_toolbox/springs/helical_torsion_spring.py:355-360 | without a pin diameter a note; with one, the gap plus wire and pin diameter is the loaded helix diameter; missing body coils are a TypeError |
| TorsionSprings.HelicalTorsionSpring.YieldStrength | me_toolbox/springs/helical_torsion_spring.py:99-104 | a percentage of 1 or more is divided by 100, a fraction is used as is, then scaled by Sut |
| TorsionSprings.HelicalTorsionSpring.StaticSafetyFactor | me_toolbox/springs/helical_torsion_spring.py:362-369 | the factor times the maximum stress is the yield strength; a zero stress is a ZeroDivisionError |
| SpurGears.PitchesFillCircle | gears/spur_gear.py:74-90 | N circular pitches pi m make up the pitch circle pi N m |
| SpurGears.MeshingGearsShareVelocity | gears/spur_gear.py:92-99 | two gears whose pitch diameters and speeds are inversely proportional have the same pitch-line velocity |
| SpurGears.CentersIsMeanDiameter | gears/spur_gear.py:623-631 | with the mating gear's teeth at ratio times the pinion's, the centre distance is the mean of the two pitch diameters |
| SpurGears.FaceRatio | gears/spur_gear.py:182-184 | the face ratio is b / (10 d) clamped below at 0.05: one of the two, and at least both |
| SpurGears.LowAndMidBandsMeet | gears/spur_gear.py:187-190 | the first two width bands of K_Hpf agree at 25 mm to within 0.001 |
| SpurGears.MidAndHighBandsMeet | gears/spur_gear.py:189-192 | with the linear coefficient 0.000815 the second and third bands agree at 432 mm to within 0.001 |
| SpurGears.HighBandAsWrittenJumps | gears/spur_gear.py:191-192 | with the coefficient 0.00815 as written, the third band starts more than 3 above where the second ends |
| SpurGears.PinionProportion | gears/spur_gear.py:187-194 | corrected: K_Hpf is the band for the width, the third band with 0.000815; a width above 1020 mm is a ValueError |
| SpurGears.PinionProportionAsWritten | gears/spur_gear.py:187-194 | as written: the same bands and error, the third band with 0.00815 |
| SpurGears.PinionProportionFormsDiffer | gears/spur_gear.py:191-192 | the two forms agree up to 432 mm and above 1020 mm; between, the program's value is higher by 0.007335 per millimetre of width |
| SpurGears.PinionProportionPositive | gears/spur_gear.py:182-194 | on a clamped ratio every band of K_Hpf is positive up to 1020 mm |
| SpurGears.PinionModifier | gears/spur_gear.py:196-202 | K_Hpm is 1.1 exactly when the pinion offset is at least 0.175 of the bearing span, else 1 |
| SpurGears.MeshAlignment | gears/spur_gear.py:204-210 | K_Hma exists exactly for the four enclosure types; any other is a KeyError |
| SpurGears.MeshAlignmentPositive | gears/spur_gear.py:205-210 | every enclosure's K_Hma is positive across the rated widths |
| SpurGears.KH | gears/spur_gear.py:158-213 | KH fails exactly on a width above 1020 mm (ValueError, checked first) or an unknown enclosure (KeyError) |
| SpurGears.KHAboveOne | gears/spur_gear.py:158-213 | within the rated widths and a known enclosure KH exceeds 1 |
| SpurGears.CrowningScalesExcess | gears/spur_gear.py:168-172 | crowned teeth scale what KH adds to 1 by exactly 0.8 |
| SpurGears.NarrowFaceIgnoresDiameter | gears/spur_gear.py:182-184 | below a face ratio of 0.05 on both diameters KH does not depend on the pitch diameter |
| SpurGears.BendingStrength | gears/spur_gear.py:215-230 | St exists exactly for grades 1 and 2; any other grade is a ValueError |
| SpurGears.ContactStrength | gears/spur_gear.py:232-247 | Sc exists exactly for grades 1 and 2; any other grade is a ValueError |
| SpurGears.StrengthsGrowWithHardness | gears/spur_gear.py:215-247 | within a grade both allowable stresses grow strictly with hardness |
| SpurGears.GradeTwoAllowsMore | gears/spur_gear.py:215-247 | for any non-negative hardness grade 2 allows more than grade 1 in bending and in contact |
| SpurGears.CyclesOrHours | gears/spur_gear.py:372-402 | no contact ratio gives None; otherwise the cycles are the given count or 60 h rpm cr from the hours; both given must agree and neither given is a ValueError |
| SpurGears.ConstructedGearHasCycles | gears/spur_gear.py:67-72 | a gear the constructor accepts (hours or cycles given, consistent when both) always yields a cycle count once it has a contact ratio |
| SpurGears.StoredIfNonZero | gears/spur_gear.py:67-70 | an attribute stored only when non-zero reads back, with a default of 0, as the given value |
| SpurGears.CheckCompatibility | gears/spur_gear.py:661-680 | the pair passes exactly when pressure angle, modulus and kind all match; otherwise a ValueError |
| SpurGears.CompatibilitySymmetric | gears/spur_gear.py:661-680 | gear 1 is compatible with gear 2 exactly when gear 2 is compatible with gear 1 |
| SpurGears.FormatProperties | gears/spur_gear.py:646-659 | the result keeps exactly the listed constructor keys, with their values unchanged |
| SpurGears.FormatPropertiesIdempotent | gears/spur_gear.py:654-659 | the contact ratio and maximum velocity never survive, and formatting twice changes nothing |
| SpurGears.IndexOf | gears/spur_gear.py:530 | list.index gives the first position holding the value |
| SpurGears.ArgMin | gears/spur_gear.py:584-586 | the minimum of (key, index) pairs picks a least key, and the first one among equals |
| SpurGears.SelectOptimized | gears/spur_gear.py:580-614 | an unknown feature is an Exception; no recorded design is a ValueError; otherwise a recorded design of least width, volume or centre distance, or all three |
| SpurGears.AllAgreesWithSingles | gears/spur_gear.py:605-612 | the 'all' selection holds exactly the three single-feature selections |
| SpurGears.SpurGear.Init | gears/spur_gear.py:46-70 | all given values are stored, contact ratio unset, and hours and cycles stored only when non-zero |
| SpurGears.SpurGear.Create | gears/spur_gear.py:17-72 | the constructor raises ValueError exactly when neither work hours nor cycles are given |
| SpurGears.SpurGear.ConvergeWidth | gears/spur_gear.py:487-511 | on convergence the width is the larger minimum width (at most 1020 mm) and KH moved by less than 1e-6 in the last step; a minimum width above 1020 mm stops the loop |
| SpurGears.SpurGear.Optimize | gears/spur_gear.py:435-621 | a pressure angle other than 20 or 25 degrees is a ValueError; on success modulus, teeth and width are restored, every recorded design is viable (width within [3 pi m, 5 pi m], alpha > 1) and the answer is the selection over them |
| Transmissions.TypeCheck | Gears/Transmission.py:41-43 | a given second gear of another kind than the first is a GearTypeError, and nothing else is |
| Transmissions.YthetaShape | Gears/Transmission.py:81-91 | the temperature factor is never below 1, never falls as the oil warms, and meets 1 at 71 degrees |
| Transmissions.Ko | Gears/Transmission.py:93-110 | the corrected overload factor is a ValueError exactly for an unknown driving or driven machine, and lies in [1, 2.25] otherwise |
| Transmissions.KoAsWritten | Gears/Transmission.py:100-110 | the table as written fails on exactly the same inputs as the corrected one |
| Transmissions.KoTablesDifferOnce | Gears/Transmission.py:102 | the two tables differ exactly on a medium-shock driver with a uniform load |
| Transmissions.KoMonotone | Gears/Transmission.py:100-102 | with the corrected entry, a rougher driver or a rougher load never lowers Ko |
| Transmissions.KoAsWrittenBreaksOrder | Gears/Transmission.py:102 | as written, a medium-shock driver with a uniform load gets a Ko above the heavy-shock entry and above 2.25 |
| Transmissions.HardnessRatioSlope | Gears/Transmission.py:358-366 | the slope A lies in [0, 0.00698] |
| Transmissions.HardnessRatioSlopeMonotone | Gears/Transmission.py:360-366 | a higher pinion-to-gear hardness ratio never lowers A |
| Transmissions.Zw | Gears/Transmission.py:346-368 | no gear at all is an AttributeError, a zero gear hardness is a ZeroDivisionError, and otherwise Zw is 1 + A (ratio - 1) |
| Transmissions.ZwBounds | Gears/Transmission.py:346-368 | equal hardness or a single gear gives Zw = 1; a gear ratio of at least 1 gives Zw of at least 1 |
| Transmissions.HardnessInvertsStrength | Gears/Transmission.py:296-311 | solving St and Sc for the hardness is an exact inverse of St and Sc, both ways |
| Transmissions.MinimalHardness | Gears/Transmission.py:293-313 | the hardness meets the bending requirement and the contact requirement taken from the contact stress, and is one of the two solved hardness values |
| Transmissions.MinimalHardnessIsLeast | Gears/Transmission.py:293-313 | every hardness that meets both requirements is at least the minimal hardness |
| Transmissions.MinimalHardnessAsWritten | Gears/Transmission.py:305 | as written, the contact requirement is fed the bending stress |
| Transmissions.MinimalHardnessAsWrittenMissesContact | Gears/Transmission.py:305 | with a bending stress of 100 and a contact stress of 1000, the hardness as written falls short of the contact requirement |
| Transmissions.RoundHalfEven | Gears/Transmission.py:409 | round() is within 1/2 of its argument, exact on integers, and even on ties |
| Transmissions.Transmission.Init | Gears/Transmission.py:45-58 | the machines, conditions, factors, ratio and gears are stored as given |
| Transmissions.Transmission.Gear2Checkup | Gears/Transmission.py:392-426 | neither second gear nor ratio is a GearTypeError; a given gear with no ratio is kept; a given gear with a ratio is kept exactly when its teeth ratio matches; otherwise a new gear copies the first with round(N1 ratio) teeth and rpm / ratio |
| Transmissions.Transmission.AssignContactRatio | Gears/Transmission.py:388-389 | both gears hold the one contact ratio of the pair |
| Transmissions.Transmission.Build | Gears/Transmission.py:14-63 | a built transmission holds compatible gears, both with the pair's contact ratio, a pinion Zw of 1 and a gear Zw from the hardness ratio |
| FatigueAnalyses.CalcKf | FatigueAnalysis/FatigueAnalysis.py:8-13 | Kf - 1 is q (Kt - 1), so for a notch sensitivity in [0, 1] and Kt of at least 1 the factor lies between 1 and Kt |
| FatigueAnalyses.FullSensitivityKeepsKt | FatigueAnalysis/FatigueAnalysis.py:8-13 | a fully sensitive notch (q = 1) keeps the theoretical factor |
| FatigueAnalyses.CombinedIsVonMises | FatigueAnalysis/FatigueAnalysis.py:70 | the combination is non-negative and its square is (b + n)^2 + 3 t^2 |
| FatigueAnalyses.Selected | FatigueAnalysis/FatigueAnalysis.py:72-79 | a single loading picks its component exactly for the load factors 1, 0.85 and 0.59, and nothing for any other |
| FatigueAnalyses.AlternatingEquivalent | FatigueAnalysis/FatigueAnalysis.py:62-79 | the stress exists exactly for a known load factor, and outside multiple loading it is the notch-corrected selected component |
| FatigueAnalyses.MultipleAlternatingIsVonMises | FatigueAnalysis/FatigueAnalysis.py:66-70 | under multiple loading the alternating stress is the von Mises value of the corrected parts, with the axial part divided by 0.85 |
| FatigueAnalyses.MeanEquivalent | FatigueAnalysis/FatigueAnalysis.py:81-105 | the mean stress exists exactly for a known load factor, and outside multiple loading it is the selected component under the mean notch factors (none for a ductile material) |
| FatigueAnalyses.MultipleMeanIsVonMises | FatigueAnalysis/FatigueAnalysis.py:91-96 | under multiple loading the mean stress is the von Mises value of the parts, without the 0.85 |
| FatigueAnalyses.DuctileMeanIsNominal | FatigueAnalysis/FatigueAnalysis.py:84-86 | a ductile material's mean stress is the nominal stress of the selected kind |
| FatigueAnalyses.BrittleSingleLoadingAgrees | FatigueAnalysis/FatigueAnalysis.py:62-105 | for a brittle material under a single loading the alternating and mean rules agree |
| FatigueAnalyses.NewAnalysis | FatigueAnalysis/FatigueAnalysis.py:46-60 | the analysis stores Se, Kc and the strengths and computes both equivalent stresses once |
| FatigueAnalyses.Ssu | FatigueAnalysis/FatigueAnalysis.py:107-110 | the shear ultimate strength lies strictly between 0 and Sut |
| FatigueAnalyses.Ssy | FatigueAnalysis/FatigueAnalysis.py:112-115 | the shear yield strength times sqrt(3) is Sy, and lies strictly between 0 and Sy |
| FatigueAnalyses.Ultimate | FatigueAnalysis/FatigueAnalysis.py:126-136 | a missing Sut is a ValueError; otherwise Sut, or Ssu under torsion (Kc = 0.59) |
| FatigueAnalyses.Yield | FatigueAnalysis/FatigueAnalysis.py:149-159 | a missing Sy is a ValueError; otherwise Sy, or Ssy under torsion |
| FatigueAnalyses.ModifiedGoodman | FatigueAnalysis/FatigueAnalysis.py:117-138 | a missing Sut is a ValueError and a negative mean a generic Exception; the factor puts the scaled load on Goodman's line n alt/Se + n mean/S = 1 |
| FatigueAnalyses.Soderberg | FatigueAnalysis/FatigueAnalysis.py:140-162 | a missing Sy is a ValueError and a negative mean a generic Exception; the factor puts the scaled load on Soderberg's line through the yield strength |
| FatigueAnalyses.SoderbergNoMoreThanModifiedGoodman | FatigueAnalysis/FatigueAnalysis.py:117-162 | with Sy at most Sut and a first-quadrant load, Soderberg's factor is never above Goodman's |
| FatigueAnalyses.GerberAsWritten | FatigueAnalysis/FatigueAnalysis.py:164-186 | as written, the factor solves n alt/Se + n (mean/S)^2 = 1, squaring the mean ratio before the factor scales it |
| FatigueAnalyses.GerberAsWrittenOffParabola | FatigueAnalysis/FatigueAnalysis.py:185-186 | for alt = mean = 100, Se = 200 and Sut = 1000 the as-written factor is 100/51, and the load it scales lands at 2650/2601 on Gerber's parabola instead of 1 |
| FatigueAnalyses.Gerber | FatigueAnalysis/FatigueAnalysis.py:164-186 | corrected: the factor puts the scaled load on Gerber's parabola n alt/Se + (n mean/S)^2 = 1; a missing Sut is a ValueError and a negative mean an Exception as written; for a non-negative mean it succeeds exactly when mean and alt are both non-zero, and fails otherwise with ZeroDivisionError |
| FatigueAnalyses.GerberFormsDifferOnStaticLoad | FatigueAnalysis/FatigueAnalysis.py:180-186 | on a static load (alt = 0, mean > 0) the corrected form is a ZeroDivisionError where the program returns the factor with n (mean/S)^2 = 1 |
| FatigueAnalyses.AsmeAsWritten | FatigueAnalysis/FatigueAnalysis.py:188-210 | as written, the factor is 1 / ((alt/Se)^2 + (mean/S)^2) with S the ultimate strength |
| FatigueAnalyses.AsmeAsWrittenIsSquared | FatigueAnalysis/FatigueAnalysis.py:209-210 | for a reversed load at half of Se the as-written value is 4 while the load reaches the ellipse at 2: it is the square of the factor |
| FatigueAnalyses.Asme | FatigueAnalysis/FatigueAnalysis.py:188-210 | corrected: the non-negative factor puts the scaled load on the ellipse through Se and the yield strength |
| FatigueAnalyses.LangerAsWritten | FatigueAnalysis/FatigueAnalysis.py:212-234 | as written, a missing Sy is a ValueError, and under torsion 0.67 Sut replaces Sy (a TypeError when Sut is missing) |
| FatigueAnalyses.LangerStatic | FatigueAnalysis/FatigueAnalysis.py:212-234 | corrected: the factor times alt + abs(mean) is the (shear) yield strength; a missing Sy is a ValueError |
| FatigueAnalyses.LangerAsWrittenOverstatesShear | FatigueAnalysis/FatigueAnalysis.py:224-227 | with Sut = 1000, Sy = 500 and alt = mean = 100 under torsion the as-written factor is more than twice the corrected one |
| FatigueAnalyses.Dispatch | FatigueAnalysis/FatigueAnalysis.py:236-267 | the selection shared by both forms: above a zero mean the lower-cased name picks the given criterion result and an unknown name fails; at or below it the dynamic factor is Se/alt (ZeroDivisionError at alt = 0); errors surface in the order the source evaluates them; on success the static factor is the given Langer result |
| FatigueAnalyses.GetSafetyFactor | FatigueAnalysis/FatigueAnalysis.py:236-267 | corrected: the selection over the corrected Gerber, ASME and Langer forms; a first-quadrant load with Sut always has a Goodman factor |
| FatigueAnalyses.GetSafetyFactorAsWritten | FatigueAnalysis/FatigueAnalysis.py:236-267 | as written: the same selection over GerberAsWritten, AsmeAsWritten and LangerAsWritten |
| FatigueAnalyses.SafetyFactorSelectorsAgree | FatigueAnalysis/FatigueAnalysis.py:236-267 | off torsion, the two selectors agree at or below a zero mean and for the Goodman and Soderberg lines whenever both Gerber and both ASME forms succeed |
| FatigueAnalyses.SelectorsDisagreeOnGerber | FatigueAnalysis/FatigueAnalysis.py:185-186 | for alt = mean = 100, Se = 200, Sut = 1000 and 'gerber' the program's selector returns 100/51, which the corrected one never does |
| FatigueAnalyses.CalcSm | FatigueAnalysis/FatigueAnalysis.py:273-290 | 0.9 Sut below 482.633 MPa, the curve fit times Sut from there on |
| FatigueAnalyses.SmContinuousAtSeventyKpsi | FatigueAnalysis/FatigueAnalysis.py:281-287 | the curve fit meets 0.9 at 70 kpsi to within 0.001 |
| FatigueAnalyses.Reversible | FatigueAnalysis/FatigueAnalysis.py:306-309 | for a non-negative mean the reversed stress times 1 - mean/Sut is alt (ZeroDivisionError when mean = Sut); for a negative mean it is alt |
| FatigueAnalyses.ReversibleAtLeastAlternating | FatigueAnalysis/FatigueAnalysis.py:306-309 | a tensile mean below Sut only raises the equivalent reversed stress |
| FatigueAnalyses.NumOfCycle | FatigueAnalysis/FatigueAnalysis.py:302-327 | the classification step: low-cycle life only strictly between Sm and Sy and only for z = -3 (else ValueError); high-cycle strictly between Se and Sm; infinite below Se; anything else a NotInRangeError; each from the reversed stress |
| FatigueAnalyses.Basquin | FatigueAnalysis/FatigueAnalysis.py:330-332 | N = (S/a)^(1/b) and the fatigue strength a N^b; a zero coefficient or exponent is a ZeroDivisionError and nothing else is |
| FatigueAnalyses.BasquinReturnsStress | FatigueAnalysis/FatigueAnalysis.py:330-332 | for a positive stress and coefficient the returned fatigue strength is the stress itself and the life is positive |
| FatigueAnalyses.CyclesToFailure | FatigueAnalysis/FatigueAnalysis.py:292-332 | the whole of NumOfCycle: a classification error propagates, below Se the life is unlimited, and z = 0 in the high-cycle range is a ZeroDivisionError; a finite life only in the low- or high-cycle range |
| FatigueAnalyses.CyclesToFailureMeetsStress | FatigueAnalysis/FatigueAnalysis.py:314-332 | a finite life is positive and its fatigue strength is the reversed stress: the life is where the S-N line reaches the load |
| FatigueAnalyses.EnduranceLimitItselfNotInRange | FatigueAnalysis/FatigueAnalysis.py:311-330 | a reversed stress exactly at Se falls in no range and raises NotInRangeError |
| FatigueAnalyses.GroupStresses | FatigueAnalysis/FatigueAnalysis.py:363-370 | from max and min, mean plus alternating is the larger and mean minus alternating the smaller stress, with a non-negative alternating part |
| FatigueAnalyses.GroupReversible | FatigueAnalysis/FatigueAnalysis.py:363-375 | a group's reversed stress is alt / (1 - mean/Sut) for a non-negative mean and alt otherwise; a zero Sut or a mean equal to Sut is a ZeroDivisionError exactly when the mean is non-negative |
| FatigueAnalyses.HighCycleBasquin | FatigueAnalysis/FatigueAnalysis.py:319-323 | the high-cycle constants a = Sm (Sm/Se)^(-3/z) and b = log10(Sm/Se)/z on the Basquin line; Se = 0 or z = 0 is a ZeroDivisionError and a non-positive Sm/Se a ValueError |
| FatigueAnalyses.HighCycleLife | FatigueAnalysis/FatigueAnalysis.py:386-388 | Miner's high-cycle life is the life NumOfCycle's high-cycle branch computes, with the same errors |
| FatigueAnalyses.HighCycleLifeMeetsStress | FatigueAnalysis/FatigueAnalysis.py:386-388 | for 0 < Se < S_rev < Sm the life is positive and a N^b = S_rev: the S-N line through Sm and Se reaches the load there |
| FatigueAnalyses.MinerLife | FatigueAnalysis/FatigueAnalysis.py:379-393 | an error only in the high-cycle range, where it is the high-cycle life's error; a finite life only there, equal to that life |
| FatigueAnalyses.GroupLife | FatigueAnalysis/FatigueAnalysis.py:363-393 | a group whose reversed stress fails stops Miner with ZeroDivisionError |
| FatigueAnalyses.FirstFailing | FatigueAnalysis/FatigueAnalysis.py:361-393 | the groups before the index all complete and the group at it fails |
| FatigueAnalyses.AppendLife | FatigueAnalysis/FatigueAnalysis.py:363-389 | one pass of the first loop leaves the group in its completed form and stops exactly when the group fails, with its error |
| FatigueAnalyses.MinerFiniteIffHighCycle | FatigueAnalysis/FatigueAnalysis.py:379-393 | Miner records a finite life exactly for a reversed stress strictly between Se and Sm whose high-cycle life is defined; there z = 0 or Se = 0 is a ZeroDivisionError |
| FatigueAnalyses.MinerAgreesWithNumOfCycle | FatigueAnalysis/FatigueAnalysis.py:302-393 | Miner and NumOfCycle classify alike, except that Miner counts the low-cycle range as infinite life; in the high-cycle range Miner's life, or its error, is the one NumOfCycle computes |
| FatigueAnalyses.Completed | FatigueAnalysis/FatigueAnalysis.py:361-393 | a group keeps its entries; when its reversed stress fails nothing is appended; otherwise it gains its reversed stress and then oo, the high-cycle life or nothing, and a failing life leaves only the stress appended |
| FatigueAnalyses.OutOfRangeDividesByStress | FatigueAnalysis/FatigueAnalysis.py:391-396 | a group without a life ends with its reversed stress, which the damage sum then divides by |
| FatigueAnalyses.Damage | FatigueAnalysis/FatigueAnalysis.py:396 | n / N times N is n; an infinite life adds a symbolic zero; a zero life is a ZeroDivisionError |
| FatigueAnalyses.DamageSum | FatigueAnalysis/FatigueAnalysis.py:394-396 | the sum fails exactly when some group ends in a zero life, and is symbolic exactly when some group has infinite life |
| FatigueAnalyses.InfiniteLifeAddsNoDamage | FatigueAnalysis/FatigueAnalysis.py:394-396 | appending a group of infinite life keeps the damage sum and makes it symbolic |
| FatigueAnalyses.MinerTotal | FatigueAnalysis/FatigueAnalysis.py:400 | the total life times the damage sum is 1; a zero sum is a ZeroDivisionError, or a TypeError when it is symbolic |
| FatigueAnalyses.Miner | FatigueAnalysis/FatigueAnalysis.py:334-406 | the groups before the first failing group are completed in place, that group keeps what was appended to it, later groups are untouched, and the result is its error; with no failing group the result is the total life of the completed groups |
| FatigueAnalyses.CompleteGroups | FatigueAnalysis/FatigueAnalysis.py:361-393 | the first loop completes the groups up to the first failing one, reports that group's error, and leaves the rest untouched |
| FatigueAnalyses.SumDamage | FatigueAnalysis/FatigueAnalysis.py:394-398 | the second loop computes exactly the damage sum |
| EnduranceLimits.CalcA95 | FatigueAnalysis/EnduranceLimit.py:53-62 | a given area wins, then 0.01046 d^2, then 0.05 w h; the rectangle fails with ValueError when the guard sees None and with TypeError when a zero width lets a missing height through |
| EnduranceLimits.ZeroWidthSlipsPastGuard | FatigueAnalysis/EnduranceLimit.py:58 | a zero width with no height gets past the guard and raises TypeError, while a non-zero width raises ValueError |
| EnduranceLimits.Ka | FatigueAnalysis/EnduranceLimit.py:64-77 | Ka is a Sut^b with the finish's coefficients; an unknown finish is a KeyError |
| EnduranceLimits.MachinedLikeColdDrawn | FatigueAnalysis/EnduranceLimit.py:72-73 | machined and cold-drawn surfaces get the same Ka |
| EnduranceLimits.EffectiveDiameter | FatigueAnalysis/EnduranceLimit.py:89-94 | a rotating round part uses its diameter; otherwise the non-negative diameter whose square is A95 / 0.07658, and a negative area is a ValueError |
| EnduranceLimits.Kb | FatigueAnalysis/EnduranceLimit.py:79-99 | 1 under axial loading; otherwise the power law on [2.79, 51] and (51, 254] mm and None outside them |
| EnduranceLimits.Kc | FatigueAnalysis/EnduranceLimit.py:101-109 | defined exactly for the five stress types (KeyError otherwise); always a known load factor, 0.59 exactly for torsion and shear |
| EnduranceLimits.MultipleRatedAsBending | FatigueAnalysis/EnduranceLimit.py:108 | multiple loading gets the bending factor 1 |
| EnduranceLimits.Unmodified | FatigueAnalysis/EnduranceLimit.py:140-157 | neither material nor value is a ValueError; a given value wins; otherwise the material's fraction of Sut below its divider and its cap at or above it; an unknown material is a KeyError |
| EnduranceLimits.UnmodifiedNeverAboveFraction | FatigueAnalysis/EnduranceLimit.py:146-155 | the table limit never exceeds the material's fraction of Sut |
| EnduranceLimits.DividerContinuity | FatigueAnalysis/EnduranceLimit.py:146-149 | steel and iron are continuous at the divider; aluminium and copper alloy drop there |
| EnduranceLimits.Modified | FatigueAnalysis/EnduranceLimit.py:159-162 | the product Ka Kb Kc Kd Ke Kf Se', failing with the first failing factor in order and with TypeError for a None Kb |
| EnduranceLimits.ModifiedAtMostUnmodified | FatigueAnalysis/EnduranceLimit.py:159-162 | factors in (0, 1] give a modified limit in (0, Se'] |
| Stresses.UniformStress | FatigueAnalysis/Stress.py:2-10 | the stress times the area is the force; a zero area is a ZeroDivisionError |
| Stresses.UniformStressLinear | FatigueAnalysis/Stress.py:2-10 | doubling the force doubles the stress |
| Stresses.BendingStress | FatigueAnalysis/Stress.py:13-34 | a zero Iy is a ZeroDivisionError; with no Mz the stress times Iy is My z; with Mz the pair also has the second stress times Iz equal to -Mz y; a missing Iz or y is a TypeError, a zero Iz a ZeroDivisionError |
| Stresses.BendingAntisymmetric | FatigueAnalysis/Stress.py:31-32 | fibres on opposite sides of the neutral axis carry opposite stresses |
| Stresses.ShearBendingStress | FatigueAnalysis/Stress.py:37-51 | the stress times I b is V Q; a zero I b is a ZeroDivisionError |
| Stresses.TorsionStress | FatigueAnalysis/Stress.py:54-60 | the stress times J is T r; a zero J is a ZeroDivisionError |
| Stresses.TorsionGrowsWithRadius | FatigueAnalysis/Stress.py:54-60 | under a positive torque the shear stress grows with the radius |
| Stresses.MaxShearStressAsWritten | FatigueAnalysis/Stress.py:63-69 | as written, 4V/(3A) for 'circle', 3V/(2A) only for ' rectangle' with a leading space, a ValueError for anything else |
| Stresses.RectangleRefusedAsWritten | FatigueAnalysis/Stress.py:66 | as written, the plain name 'rectangle' is a ValueError |
| Stresses.MaxShearStress | FatigueAnalysis/Stress.py:63-69 | corrected: defined exactly for 'circle' (4V/(3A)) and 'rectangle' (3V/(2A)); any other shape is a ValueError |
| Stresses.MaxShearAboveMean | FatigueAnalysis/Stress.py:63-69 | for a positive load either peak shear exceeds the mean shear V/A |
| FailureCriteria.LineCriterion | me_toolbox/fatigue/failure_criteria.py:11-49 | modified Goodman and Soderberg: a negative mean is a generic Exception, a zero denominator a ZeroDivisionError, and otherwise the factor puts the scaled load on the line n alt/Se + n mean/S = 1 |
| FailureCriteria.SoderbergNoMoreThanGoodman | me_toolbox/fatigue/failure_criteria.py:11-49 | with 0 < Sy <= Sut and a first-quadrant load both factors exist and Soderberg's is at most Goodman's |
| FailureCriteria.Langer | me_toolbox/fatigue/failure_criteria.py:91-109 | Langer's factor exists exactly when alt + abs(mean) is non-zero, and then times it gives the yield strength |
| FailureCriteria.LangerIgnoresMeanSign | me_toolbox/fatigue/failure_criteria.py:101-106 | the two quadrant branches give the same factor for a mean stress and its negation |
| FailureCriteria.Gerber | me_toolbox/fatigue/failure_criteria.py:52-69 | a negative mean is a generic Exception, a zero mean or alternating stress a ZeroDivisionError; otherwise the closed form solves Gerber's parabola n alt/Se + (n mean/Sut)^2 = 1 |
| FailureCriteria.GerberSolves | me_toolbox/fatigue/failure_criteria.py:65-67 | n = 0.5 a^2 b (s - 1) with s^2 = 1 + 4/(a^2 b^2) is a root of n b + (n/a)^2 = 1 |
| FailureCriteria.AsmeElliptic | me_toolbox/fatigue/failure_criteria.py:72-88 | a negative mean is a generic Exception, a zero load a ZeroDivisionError; otherwise the non-negative factor puts the scaled load on the ellipse through Se and Sy |
| FailureCriteria.EllipseSolves | me_toolbox/fatigue/failure_criteria.py:85-86 | n^2 = 1/(b^2 + c^2) puts (n b, n c) on the unit circle |
| FailureCriteria.Lower | me_toolbox/fatigue/failure_criteria.py:142 | str.lower keeps the length and lower-cases each ASCII letter in place |
| FailureCriteria.LowerIdempotent | me_toolbox/fatigue/failure_criteria.py:142 | lower-casing twice is lower-casing once |
| FailureCriteria.Optional | me_toolbox/fatigue/failure_criteria.py:21-29 | the negative-mean Exception comes first; a missing strength then gives None (the caught TypeError); otherwise the criterion's own value or error |
| FailureCriteria.GetSafetyFactor | me_toolbox/fatigue/failure_criteria.py:112-180 | above a zero mean the lower-cased name picks its criterion after all four are evaluated, and an unknown name fails; at or below it the fatigue factor is Se/alt; the static factor is Langer's, None without Sy |
| Bolts.Height | me_toolbox/fasteners/bolt.py:30-33 | the fundamental triangle's height is positive for a positive pitch and zero for a zero pitch |
| Bolts.DiametersOrdered | me_toolbox/fasteners/bolt.py:35-48 | for a positive pitch root < mean < pitch < nominal diameter, and the mean diameter is the mean of the nominal and root diameters |
| Bolts.HeadDiam | me_toolbox/fasteners/bolt.py:50-53 | the head contact diameter is 1.5 d, wider than a positive shank |
| Bolts.UnthreadedLength | me_toolbox/fasteners/bolt.py:55-59 | the shank and the thread make up the length; a missing thread length is a TypeError |
| Bolts.NominalArea | me_toolbox/fasteners/bolt.py:61-64 | a non-zero diameter has a positive nominal area |
| Bolts.NominalAreaGrows | me_toolbox/fasteners/bolt.py:61-64 | a thicker bolt has a larger nominal area |
| Bolts.ProofLoad | me_toolbox/fasteners/bolt.py:66-72 | the proof load is proof strength times stress area; a missing attribute becomes NotImplementedError, any other error of the strength passes through |
| Bolts.StressAreaExceedsMinor | me_toolbox/fasteners/metric_bolt.py:48-61 | for a positive pitch the stress area exceeds the minor area, with the metric and the UN root depth alike |
| Bolts.MetricGradesOrdered | me_toolbox/fasteners/metric_bolt.py:11-18 | every metric property class has low < high and proof < yield < tensile strength |
| Bolts.NewMetricBolt | me_toolbox/fasteners/metric_bolt.py:23-36 | Sy = 0 takes the grade's yield (an unknown grade is a KeyError) and marks steel; any other Sy is kept and marks a given yield |
| Bolts.NewOldMetricBolt | me_toolbox/fasteners/old/metric_bolt.py:41-42 | Sy = None takes the grade's yield (an unknown grade is a KeyError); a given Sy, even 0, is kept and marks a given yield |
| Bolts.MetricConstructorsAgree | me_toolbox/fasteners/metric_bolt.py:35-36 | the two revisions agree once no yield is spelled 0 and None; an explicit Sy of 0 is a yield of 0 only in the older one |
| Bolts.MetricThreadLength | me_toolbox/fasteners/metric_bolt.py:38-46 | the thread is 2d plus 6, 12 or 25, and no branch is taken exactly for L <= 125 with d > 48 |
| Bolts.MetricThreadLengthMonotone | me_toolbox/bolts/metric_bolt.py:24-32 | a longer bolt of the same diameter never gets a shorter thread |
| Bolts.MetricProofStrength | me_toolbox/fasteners/metric_bolt.py:63-71 | 0.85 Sy for a given yield; otherwise the grade's Sp, a KeyError for an unknown grade |
| Bolts.MetricTensileStrength | me_toolbox/fasteners/metric_bolt.py:73-76 | the grade's Sut, a KeyError for an unknown grade |
| Bolts.SteelProofBelowYieldAndTensile | me_toolbox/fasteners/metric_bolt.py:63-76 | a steel bolt's proof strength is below its yield strength, which is below its tensile strength |
| Bolts.GivenYieldProofBelowYield | me_toolbox/fasteners/metric_bolt.py:69-71 | a positive given yield puts the proof strength below it |
| Bolts.NewUnBolt | me_toolbox/fasteners/un_bolt.py:24-40 | the pitch times tpi is 1 and the rest is kept; zero threads per inch is a ZeroDivisionError |
| Bolts.UnThreadLength | me_toolbox/fasteners/un_bolt.py:42-45 | the thread is 2d + 1/4 up to 6 in and 2d + 1/2 beyond |
| Bolts.UnThreadLengthMonotone | me_toolbox/fasteners/un_bolt.py:42-45 | a longer UN bolt never gets a shorter thread |
| Bolts.UnRow | me_toolbox/fasteners/un_bolt.py:65-72 | an unknown grade is a KeyError; a one-range grade gives its row; a two-range grade gives the first range holding d strictly, and fails with ValueError exactly when neither does |
| Bolts.UnProofStrength | me_toolbox/fasteners/un_bolt.py:62-72 | the single row's Sp, or the Sp of the first range holding d strictly; ValueError when none does |
| Bolts.UnTensileStrengthAsWritten | me_toolbox/fasteners/un_bolt.py:74-84 | as written, a two-range grade returns the proof strength; a single-range grade returns Sut |
| Bolts.UnTensileAsWrittenReturnsProof | me_toolbox/fasteners/un_bolt.py:81 | a grade-5 bolt of 1/2 in reports 85 kpsi, its proof strength, instead of 120 |
| Bolts.UnTensileStrength | me_toolbox/fasteners/un_bolt.py:74-84 | corrected: the Sut of the row the proof strength uses (the single row, or the first of the two ranges holding d), failing exactly when and as the proof strength fails |
| Bolts.UnProofBelowTensile | me_toolbox/fasteners/un_bolt.py:11-17 | wherever a UN bolt is rated its corrected tensile strength exceeds its proof strength |
| Bolts.UnBoundaryRejected | me_toolbox/fasteners/un_bolt.py:66-70 | grade 5 at exactly 1 in and grade 2 at 13/16 in are refused with ValueError; grade 1 at 1/4 in is rated 33 |
| ThreadedFasteners.GripedThreads | me_toolbox/fasteners/threaded_fastener.py:46-53 | the thread in the grip is positive and with the shank makes up the grip; a shank reaching the grip is a ValueError |
| ThreadedFasteners.NewThreadedFastener | me_toolbox/fasteners/threaded_fastener.py:11-26 | intended constructor: keeps bolt, grip and layers, and fails with ValueError exactly when griped_threads does |
| ThreadedFasteners.NewThreadedFastenerAsWritten | me_toolbox/fasteners/threaded_fastener.py:25 | as written every construction is a TypeError, from len(bolt) on a bolt without a length |
| ThreadedFasteners.ConstructorAsWrittenRefusesSoundJoint | me_toolbox/fasteners/threaded_fastener.py:25-26 | a joint whose shank ends inside the grip is refused as written and built by the intended constructor |
| ThreadedFasteners.ThreadedPlateGrip | me_toolbox/fasteners/threaded_fastener.py:28-40 | the grip exceeds h by half the plate thickness or half the diameter, whichever is smaller |
| ThreadedFasteners.BoltStiffness | me_toolbox/fasteners/threaded_fastener.py:55-64 | kb times Ad lt + At ld is Ad At E with lt = grip - ld; a zero denominator is a ZeroDivisionError |
| ThreadedFasteners.BoltStiffnessInSeries | me_toolbox/fasteners/threaded_fastener.py:55-64 | for a physical bolt whose shank ends inside the grip, kb is positive and 1/kb = lt/(At E) + ld/(Ad E): shank and thread as springs in series |
| ThreadedFasteners.FastenerStiffness | me_toolbox/fasteners/threaded_fastener.py:137-142 | C times km + kb is kb; a zero sum is a ZeroDivisionError |
| ThreadedFasteners.FastenerStiffnessIsFraction | me_toolbox/fasteners/threaded_fastener.py:137-142 | a stiff bolt and stiff members give 0 < C < 1 |
| ThreadedFasteners.MiddleIndex | me_toolbox/fasteners/threaded_fastener.py:95-103 | the middle layer index lies within a non-empty stack |
| ThreadedFasteners.MiddleIndexIsFirstReaching | me_toolbox/fasteners/threaded_fastener.py:95-103 | the middle layer is the first whose running total reaches half the grip, and 0 when none does |
| ThreadedFasteners.Split | me_toolbox/fasteners/threaded_fastener.py:105-113 | thicknesses and moduli stay of equal length after the split |
| ThreadedFasteners.SplitKeepsTotal | me_toolbox/fasteners/threaded_fastener.py:105-113 | splitting the middle layer keeps the total thickness |
| ThreadedFasteners.SplitShape | me_toolbox/fasteners/threaded_fastener.py:108-113 | a split adds exactly one layer after the middle one with its modulus and leaves the others; a boundary at half the grip leaves the stack unchanged |
| ThreadedFasteners.SplitAtCentrePlane | me_toolbox/fasteners/threaded_fastener.py:95-113 | when a layer reaches half the grip, the first m + 1 layers after the split total exactly half the grip |
| ThreadedFasteners.Cone | me_toolbox/fasteners/threaded_fastener.py:115-120 | the first face is the head diameter, and there is one face more than layers |
| ThreadedFasteners.ConeStep | me_toolbox/fasteners/threaded_fastener.py:116-120 | consecutive faces widen by 2 t tan(alpha) down to the middle layer and narrow by it after |
| ThreadedFasteners.Diameters | me_toolbox/fasteners/threaded_fastener.py:122 | after the pop there is one diameter per layer |
| ThreadedFasteners.ConeClosesAtNut | me_toolbox/fasteners/threaded_fastener.py:115-122 | when the layers after the middle are as thick as those down to it, the last diameter is the head diameter again |
| ThreadedFasteners.LayerStiffness | me_toolbox/fasteners/threaded_fastener.py:127-128 | a vanishing denominator of the logarithm's argument is a ZeroDivisionError, a non-positive argument a ValueError, a zero logarithm a ZeroDivisionError; otherwise the stiffness times ln is 0.5774 pi E d |
| ThreadedFasteners.LayerStiffnessPositive | me_toolbox/fasteners/threaded_fastener.py:127-128 | a frustum wider than the bolt, of positive thickness and modulus, has its argument above 1 and a positive stiffness |
| ThreadedFasteners.Stiffnesses | me_toolbox/fasteners/threaded_fastener.py:124-129 | one stiffness per layer |
| ThreadedFasteners.StiffnessesPerLayer | me_toolbox/fasteners/threaded_fastener.py:124-129 | the list succeeds exactly when every layer has a stiffness and then holds each layer's stiffness in order; otherwise its error is that of the first layer without one |
| ThreadedFasteners.SeriesBelowEach | me_toolbox/fasteners/threaded_fastener.py:134-135 | members in series are softer than each one: 0 < km <= k_i |
| ThreadedFasteners.SplitLayers | me_toolbox/fasteners/threaded_fastener.py:91-113 | the middle index lies within the split stack, whose thicknesses and moduli have equal length |
| ThreadedFasteners.SubstrateStiffness | me_toolbox/fasteners/threaded_fastener.py:75-135 | an empty stack is an IndexError |
| ThreadedFasteners.SubstrateBelowEachLayer | me_toolbox/fasteners/threaded_fastener.py:75-135 | when every split layer is thicker than zero, of positive modulus and with a frustum wider than the bolt, km is defined and 0 < km <= the stiffness of each layer |
| ThreadedFasteners.SeriesStiffness | me_toolbox/fasteners/threaded_fastener.py:134-135 | a zero layer stiffness gives km = 0 as numpy's 1/inf does; otherwise km times the reciprocal sum is 1, and a zero sum is a ZeroDivisionError |
| ThreadedFasteners.SplitLayersAtCentre | me_toolbox/fasteners/threaded_fastener.py:91-113 | layers that fill the grip keep their total and get a boundary at the centre plane with layers on both sides |
| ThreadedFasteners.PressureConeSymmetric | me_toolbox/fasteners/threaded_fastener.py:91-122 | layers that fill the grip give a cone that returns to 1.5 d at the nut |
| ThreadedFasteners.SplitCutsThirdLayer | me_toolbox/fasteners/threaded_fastener.py:105-113 | layers 2, 3, 3, 2, 3 with a grip of 13: the third layer is cut into 1.5 and 1.5 |
| ThreadedFasteners.SplitCutsFirstLayer | me_toolbox/fasteners/threaded_fastener.py:105-113 | layers 5, 1, 2 with a grip of 8: the first layer is cut into 4 and 1 |
| ThreadedFasteners.SplitLeavesBoundaryStack | me_toolbox/fasteners/threaded_fastener.py:108 | layers 2, 3, 3, 2 with a grip of 10 meet the centre plane at a boundary and are not cut |
| ThreadedFasteners.SplitCutsSymmetricStack | me_toolbox/fasteners/threaded_fastener.py:105-113 | layers 2, 4, 2 are cut through the middle layer into 2 and 2 |
| ThreadedFasteners.BoundaryStackDiameters | me_toolbox/fasteners/threaded_fastener.py:115-122 | the unsplit stack 2, 3, 3, 2 under a 15 mm head gives 15, 15 + 4 tan(alpha) twice, and 15 |
| ThreadedFasteners.FindMiddle | me_toolbox/fasteners/threaded_fastener.py:95-103 | the nested running-total loops find exactly the middle index |
| ThreadedFasteners.SplitMiddle | me_toolbox/fasteners/threaded_fastener.py:105-113 | the overwrite and the two inserts compute exactly the split |
| ThreadedFasteners.ConeDiameters | me_toolbox/fasteners/threaded_fastener.py:115-122 | the append loop and the pop compute exactly the diameters |
| ThreadedFasteners.SeriesOfLayers | me_toolbox/fasteners/threaded_fastener.py:124-135 | the stiffness loop and the reciprocal sum compute exactly the layer stiffnesses and km |
| ThreadedFasteners.CalcSubstrateStiffness | me_toolbox/fasteners/threaded_fastener.py:75-135 | the whole calculation returns exactly the substrate stiffness of its steps |
| ThreadedFasteners.JointConstant | me_toolbox/fasteners/threaded_fastener.py:137-142 | C from kb and km, the bolt's error taking precedence over the members' |
| ThreadedFasteners.JointConstantIsFraction | me_toolbox/fasteners/threaded_fastener.py:137-142 | a physical bolt with its shank inside the grip and stiff members carries a fraction strictly between 0 and 1 |
| ThreadedFasteners.NoLayersIsIndexError | me_toolbox/fasteners/threaded_fastener.py:105-106 | a fastener without layers fails with IndexError on the members |
| ThreadedFasteners.LegacyGripThreadsUnchecked | me_toolbox/bolts/threaded_fastener.py:27-30 | the older grip_threads returns a length <= 0 exactly where the newer one raises ValueError, and agrees with it elsewhere |
| ThreadedFasteners.LegacyFastenerStiffness | me_toolbox/bolts/threaded_fastener.py:32-41 | as written, the stiffness times Ad l + At ld is Ad At E with the whole grip l as the thread length |
| ThreadedFasteners.LegacyCountsShankTwice | me_toolbox/bolts/threaded_fastener.py:39-41 | the older formula is the newer one for a grip longer by the shank |
| ThreadedFasteners.LegacyStiffnessFallsWithGrip | me_toolbox/bolts/threaded_fastener.py:32-41 | the older stiffness is positive and falls as the grip grows |
| ThreadedFasteners.LegacyBelowBoltStiffness | me_toolbox/bolts/threaded_fastener.py:39 | with a shank inside the grip the older formula gives a softer bolt than lt = grip - ld does |
| ThreadedFasteners.LegacyAgreesWithoutShank | me_toolbox/bolts/threaded_fastener.py:39-41 | without a shank both formulas agree |
| BoltPatterns.Preloads | me_toolbox/fasteners/bolt_pattern.py:30 | one preload per fastener, in order |
| BoltPatterns.JointConstants | me_toolbox/fasteners/bolt_pattern.py:39-42 | one joint constant per fastener, in order |
| BoltPatterns.TotalStiffness | me_toolbox/fasteners/bolt_pattern.py:44-47 | km + kb of each fastener, in order |
| BoltPatterns.TotalStiffnessPositive | me_toolbox/fasteners/bolt_pattern.py:44-47 | stiff bolts and members give a positive total over a non-empty pattern |
| BoltPatterns.BoltShearArea | me_toolbox/fasteners/bolt_pattern.py:49-58 | nominal areas for 'shank', stress areas for 'thread', a ValueError for anything else |
| BoltPatterns.DirectShearForce | me_toolbox/fasteners/bolt_pattern.py:70-78 | one in-plane force per bolt, its z component zeroed |
| BoltPatterns.DirectShearSumsToForce | me_toolbox/fasteners/bolt_pattern.py:70-78 | the direct shear shares add up to the in-plane part of the external force |
| BoltPatterns.LargerAreaLargerShare | me_toolbox/fasteners/bolt_pattern.py:78 | a bolt with a larger shear area takes the larger share |
| BoltPatterns.WeightedMean | me_toolbox/fasteners/bolt_pattern.py:87-93 | no bolts give 0; a zero total weight over some bolts is a ZeroDivisionError |
| BoltPatterns.AccumulateMean | me_toolbox/fasteners/bolt_pattern.py:88-89 | the accumulating loop computes exactly the weighted mean |
| BoltPatterns.MeanWithin | me_toolbox/fasteners/bolt_pattern.py:87-93 | with positive weights the mean lies between the least and the greatest coordinate |
| BoltPatterns.MeanOfCoincident | me_toolbox/fasteners/bolt_pattern.py:87-93 | bolts all at one coordinate put the mean there |
| BoltPatterns.Center | me_toolbox/fasteners/bolt_pattern.py:80-94 | the centre is the weighted mean coordinate by coordinate, failing exactly on a zero total weight |
| BoltPatterns.Centroid | me_toolbox/fasteners/bolt_pattern.py:87-94 | the three loops compute exactly the weighted centre |
| BoltPatterns.RotationCenter | me_toolbox/fasteners/bolt_pattern.py:80-94 | G is the shear-area-weighted centre, or the shear-area error |
| BoltPatterns.CenterOfRotation | me_toolbox/fasteners/bolt_pattern.py:80-94 | the method computes exactly G |
| BoltPatterns.NeutralPoint | me_toolbox/fasteners/bolt_pattern.py:141-156 | H is exactly the stiffness-weighted centre of the bolt locations |
| BoltPatterns.NeutralPointOfCoincidentBolts | me_toolbox/fasteners/bolt_pattern.py:141-156 | bolts that all sit at one point put H there |
| BoltPatterns.DirectNormalLoad | me_toolbox/fasteners/bolt_pattern.py:134-139 | one load along z per joint; a zero total stiffness is a ZeroDivisionError |
| BoltPatterns.DirectNormalSumsToForce | me_toolbox/fasteners/bolt_pattern.py:134-139 | the axial shares add up to F_z |
| BoltPatterns.TorqueAboutCenter | me_toolbox/fasteners/bolt_pattern.py:100-106 | only the z component of the torque about G is kept |
| BoltPatterns.TorqueIgnoresAxialParts | me_toolbox/fasteners/bolt_pattern.py:100-106 | the twisting torque ignores the axial force and the heights of the force and of G |
| BoltPatterns.TorqueThroughCenter | me_toolbox/fasteners/bolt_pattern.py:100-102 | a force whose line of action passes through G twists nothing |
| BoltPatterns.Offsets | me_toolbox/fasteners/bolt_pattern.py:108 | each offset is the bolt's location minus G |
| BoltPatterns.PolarMoment | me_toolbox/fasteners/bolt_pattern.py:112-114 | the loop computes exactly b = sum of A_i times the squared offset |
| BoltPatterns.PolarMomentPositive | me_toolbox/fasteners/bolt_pattern.py:112-114 | with positive areas, b is positive once one bolt lies off G |
| BoltPatterns.TorqueShares | me_toolbox/fasteners/bolt_pattern.py:110-116 | one torque share per bolt |
| BoltPatterns.TorqueSharePerpendicular | me_toolbox/fasteners/bolt_pattern.py:110-116 | each torque share lies in the joint plane, perpendicular to the bolt's offset |
| BoltPatterns.TorqueSharesBalance | me_toolbox/fasteners/bolt_pattern.py:96-116 | for bolts in the plane of G the shares' moments about G add up to the twisting torque |
| BoltPatterns.OffsetsAboutCenter | me_toolbox/fasteners/bolt_pattern.py:88-108 | the area-weighted offsets from G have no first moment |
| BoltPatterns.TorqueSharesNoNetForce | me_toolbox/fasteners/bolt_pattern.py:110-116 | offsets without first moment make the torque shares add up to no net force |
| BoltPatterns.TorqueShearOf | me_toolbox/fasteners/bolt_pattern.py:96-116 | one torque share per fastener, failing exactly when G does |
| BoltPatterns.TorqueShearForce | me_toolbox/fasteners/bolt_pattern.py:96-116 | the method computes exactly the torque shares |
| BoltPatterns.TotalShearForce | me_toolbox/fasteners/bolt_pattern.py:65-68 | direct plus torque share of each pair zip forms, as many as the shorter list |
| BoltPatterns.TotalShearSumsToForce | me_toolbox/fasteners/bolt_pattern.py:65-116 | the bolts' total shear forces add up to the in-plane external force |
| BoltPatterns.Norm | me_toolbox/fasteners/bolt_pattern.py:63 | the norm is non-negative and its square is v . v |
| BoltPatterns.ShearStress | me_toolbox/fasteners/bolt_pattern.py:60-63 | each stress times its area is the force's norm, over the pairs zip forms |
| BoltPatterns.ShearStressNonNegative | me_toolbox/fasteners/bolt_pattern.py:60-63 | over positive areas no shear stress is negative |
| BoltPatterns.NormalStress | me_toolbox/fasteners/bolt_pattern.py:118-122 | each normal stress times its stress area is the bolt load |
| BoltPatterns.EquivalentStress | me_toolbox/fasteners/bolt_pattern.py:194 | the von Mises stress is non-negative and its square is sigma^2 + 3 tau^2 |
| BoltPatterns.EquivalentStresses | me_toolbox/fasteners/bolt_pattern.py:191-195 | the von Mises stress of each pair zip forms |
| BoltPatterns.EquivalentAtLeastNormal | me_toolbox/fasteners/bolt_pattern.py:194 | the equivalent stress is never below the magnitude of the normal stress |
| BoltPatterns.FastenerLoad | me_toolbox/fasteners/bolt_pattern.py:129-132 | each load is non-negative and is plus or minus the sum of the direct and bending z components |
| BoltPatterns.AxialLoadShared | me_toolbox/fasteners/bolt_pattern.py:129-139 | without bending, a non-negative axial force is carried whole by the joints |
| BoltPatterns.BoltLoad | me_toolbox/fasteners/bolt_pattern.py:124-127 | each bolt load exceeds its preload by P times C |
| BoltPatterns.BoltLoadBetween | me_toolbox/fasteners/bolt_pattern.py:124-127 | with 0 <= C <= 1 and P >= 0 the bolt carries between its preload and preload plus P |
| BoltPatterns.BoltLoadsOf | me_toolbox/fasteners/bolt_pattern.py:124-139 | one bolt load per fastener; a zero total stiffness is a ZeroDivisionError |
| BoltPatterns.BoltsKeepPreload | me_toolbox/fasteners/bolt_pattern.py:124-127 | a joint with C in [0, 1] never loses bolt tension to the external load |
| BoltPatterns.LoadSafetyFactors | me_toolbox/fasteners/bolt_pattern.py:203-204 | preload plus n_L times (F_b - F_i) is the proof load |
| BoltPatterns.LoadSafeIffWithinProof | me_toolbox/fasteners/bolt_pattern.py:197-209 | a loaded bolt has n_L >= 1 exactly when its load is within the proof load |
| BoltPatterns.SeparationSafetyFactors | me_toolbox/fasteners/bolt_pattern.py:217 | n_0 times (1 - C) P is the preload |
| BoltPatterns.SeparationSafeIffPreloadHolds | me_toolbox/fasteners/bolt_pattern.py:211-222 | the joint has n_0 >= 1 exactly when the members' share of P does not exceed the preload |
| BoltPatterns.ProofSafetyFactors | me_toolbox/fasteners/bolt_pattern.py:230-231 | n_p times the equivalent stress is the proof strength, over the pairs zip forms |
| BoltPatterns.ProofSafeIffWithinStrength | me_toolbox/fasteners/bolt_pattern.py:224-236 | a stressed bolt has n_p >= 1 exactly when its equivalent stress is within the proof strength |
| BoltPatterns.Report | me_toolbox/fasteners/bolt_pattern.py:209 | with minimal_value the least factor, which is one of them; otherwise the whole list; min of no factors is a ValueError |

## Left out

- Floating point: the model computes over exact reals, so rounding, `inf` and `nan` are not modelled.
- Division by zero in plain Python raises ZeroDivisionError. The formula functions require their divisors (wire and spring diameters, moduli, rates and coil counts, spring and hook indices of 0 or 1, Se, Sut and other strengths, areas, pitch diameters) to be non-zero instead of returning that error. By module, the members that do so are:
  - SpringFormulas: SpringIndex, RateFactor, CalcSpringConstant, CalcActiveCoils, CalcDeflection, FactorKs, FactorKw, FactorKB, StressFactor, CurvatureFactor, MaxShearStress and EstimatedFreeLength;
  - MeExtensionSprings: BodyCoils, FreeLength, Property, HookKA, HookKB, NormalStress, CycleStressesAsWritten and CycleStressesCorrected;
  - ExtensionSprings: ExtensionDeflection, ExtensionSpring.Offset, and the setters, sorter and constructor, for a zero rate, a zero coil count or body coils that cancel G/E;
  - TorsionSprings: CoilStiffness, TorsionRate, TorsionActiveCoils, LegCoils, AngularDeflectionOf, MaxStress, CycleStresses, HelixDiameter, HelicalTorsionSpring.Offset, AngularDeflection, ClearanceOf, StaticSafetyFactor, Init (a radius of 0), and the setters and sorter;
  - PushSprings: PushSpring.ShearStress, CalcFreeLength, the setters, SortCoilsAndRate and RunCheckDesign;
  - FailureCriteria: LineCriterion, Gerber, AsmeElliptic, Evaluate, Optional and GetSafetyFactor, for a zero Se or strength;
  - FatigueAnalyses: Reversible, for Sut = 0 (GroupReversible, used by Miner, returns that error instead);
  - Stresses: MaxShearStressAsWritten and MaxShearStress, for a zero area (UniformStress returns the error);
  - SpurGears: FaceRatio, PinionModifier, KH, SpurGear.KHAt, ConvergeWidth and Optimize, for a pitch diameter or bearing span of 0;
  - Transmissions: RequiredBending, RequiredContact, MinimalHardness and MinimalHardnessAsWritten, for zero life or hardness factors, and Transmission.Gear2Checkup, for a pinion of 0 teeth.
- ReciprocalSum, SeriesStiffness: numpy's 1/0 is `inf`. A zero layer stiffness is modelled as numpy gives it, as km = 0. A non-empty sum of reciprocals that cancels to 0 makes numpy return `inf`; the model returns ZeroDivisionError there.
- FastenerStiffness: kb / (km + kb) is a numpy division, which gives `inf` or `nan` when km + kb = 0. The model returns ZeroDivisionError there.
- The bolt-pattern formulas divide numpy arrays. Where numpy would return `inf` or `nan` after a division by zero, the BoltPatterns members put a precondition on the divisor instead.
- Square root, `**` with a real exponent, logarithms, `tan` and `np.interp`: these are parameters of the functions that use them. Only the properties a lemma needs are assumed of them, as predicates in its `requires`.
- SpringFormulas.CurvatureFactor, MeExtensionSprings.HookKA, MeExtensionSprings.HookKB: a spring or hook index of 0 or 1 is a ZeroDivisionError in the source. The model excludes it by a precondition rather than returning the error.
- Printing, `verbose` flags, `get_info` and every report string are left out, because they are output only.
- `estimate_pre_load` of a bolt (me_toolbox/fasteners/bolt.py) is left out: it only prints 0.75 and 0.90 of the proof load, which is modelled.
- The minimum wire diameter search loops, `natural_frequency` and `buckling` of the springs are left out. They iterate over material tables and call sympy's `solve`, which is outside this model. The formulas they call are modelled.
- Sympy algebra is left out. A spring's free parameters are modelled only by the distinction between a concrete number and a symbol (`Num`).
- Placeholder methods that raise NotImplementedError are modelled as that error only.
- SpurGears: the geometry factor tables (`Y_j` read from CSV files), the contact ratio geometry, `CheckUndercut`, the life factors YN and ZN, Yz, ZE, Kv, Ks and KB are taken as given values, because they come from charts and files.
- SpurGears.SpurGear.ConvergeWidth, SpurGears.SpurGear.Optimize: their loops carry a `fuel` bound. A run that would need more iterations than the fuel reports that it did not converge.
- Transmissions: `BendingStress`, `ContactStress` and `LifeExpectency` call gear methods, in CamelCase, that no gear class in the repository defines. They are taken as parameters. HelicalGear is not part of this model.
- FatigueAnalyses: the Marin factors Kd, Ke and Kf are taken as values given by the caller, since the source reads them from charts.
- BoltPatterns: `bending_normal_load` and `pol2cart` are left out. Bending loads are a parameter of the members that use them.
- BoltPatterns: the source reads `preload` and `member_stiffness` from each fastener, and ThreadedFastener defines neither, so those lines raise AttributeError. The model takes both as fields of the pattern.
- Constructor chains across revisions are left out, because each is a TypeError in the program:
  - `springs/ExtensionSpring.py` calls its base class with arguments that base does not accept;
  - `me_toolbox/springs/helical_push_spring.py` line 46 and `me_toolbox/springs/helical_torsion_spring.py` lines 47-48 pass eleven arguments to the eight-parameter `Spring.__init__` of `me_toolbox/springs/spring.py` line 13;
  - `me_toolbox/fasteners/old/metric_bolt.py` line 43 calls `super()` with eleven arguments;
  - Transmission calls CamelCase gear methods. Each class's own logic is modelled. Bolts.NewOldMetricBolt models only lines 41-42.
- Bolts: a metric bolt of an unknown grade that still has a nonzero yield strength is not modelled separately from an unknown grade.
- `zip` truncation to the shorter list is modelled. Aliasing between objects (two patterns sharing one fastener) is not.
- `Springs/Spring.py` and `springs/helical_torsion_spring.py` (an empty class) are not modelled beyond the formulas they share. The examples, tests, `scratch_1.py` and `setup.py` are not part of this model.
- PinionProportion: uses the corrected high-band coefficient 0.000815 where gears/spur_gear.py:192 has 0.00815, so for widths in (432, 1020] mm it returns less than the program. SpurGears.PinionProportionAsWritten is the program's form, and SpurGears.PinionProportionFormsDiffer states the difference.
- KH: built on PinionProportion, so it carries the corrected high band for widths in (432, 1020] mm.
- ConvergeWidth: iterates on KH, so for widths in (432, 1020] mm it converges on the corrected high band, not on the program's.
- Optimize: runs ConvergeWidth, so it inherits the corrected high band.
- Gerber: the corrected factor needs a non-zero mean and a non-zero alternating stress (ZeroDivisionError otherwise), where the program's GerberAsWritten returns a value for alt = 0. FatigueAnalyses.GerberFormsDifferOnStaticLoad states the difference.
- GetSafetyFactor: dispatches to the corrected Gerber, ASME and Langer forms. The program's dispatch is GetSafetyFactorAsWritten, and SafetyFactorSelectorsAgree and SelectorsDisagreeOnGerber state where the two agree and where they differ.
- BuildLegacy: assumes that `Spring` in springs/HelicalPushSpring.py line 1 is the class of springs/Spring.py line 5, whose seven parameters match the call at line 45. With the eight-parameter base of springs/spring.py line 7, line 45 would be a TypeError; that resolution is not modelled.
- Build, BuildLegacy: check_design's `isinstance(..., float)` tests are taken as true for every stored number. A Python int coil count or free length would skip those checks. The buckling property and the natural frequency are given to check_design as inputs.
- Lower: both Lower functions lower-case the ASCII letters only. Python's str.lower also folds non-ASCII letters; Unicode case folding is not modelled.
- NumOfCycle: states the classification of FatigueAnalysis/FatigueAnalysis.py:302-327 only. The coefficients a and b (lines 315-322, where z = 0 is a ZeroDivisionError), the life N and the strength Sf (lines 331-332) are in FatigueAnalyses.CyclesToFailure, and CyclesToFailureMeetsStress ties N back to Sf.
- Stiffnesses: its ensures give the length only. The per-layer values and the first failing layer are stated by the separate lemma ThreadedFasteners.StiffnessesPerLayer.
- Miner: every stress group must hold numbers in its first three entries, as its docstring asks; a shorter group (an IndexError) or a non-numeric entry (a TypeError) is excluded by a precondition rather than modelled.
- SubstrateStiffness: its ensures state the empty-stack IndexError only. The value of km is bounded by ThreadedFasteners.SubstrateBelowEachLayer, and ThreadedFasteners.CalcSubstrateStiffness computes it step by step.
- MeExtensionSprings: the body and hook shear stresses use SpringFormulas.MaxShearStress, the spring's calc_max_shear_stress formula. The shear-stress formula of the parent HelicalCompressionSpring is not part of this model.

## Findings

| source | as written | input that shows it | evidently intended | confidence | as-written member | corrected member |
|---|---|---|---|---|---|---|
| springs/HelicalPushSpring.py:55-61 | the coil and rate sorter runs before the end type is checked | an unknown end type with only the active coils given: the sorter fails first with TypeError | an unknown end type is refused with ValueError before anything else | not executed | PushSprings.PushSpring.BuildLegacy | PushSprings.PushSpring.Build |
| me_toolbox/springs/extension_spring.py:272-273 | the body alternating stress uses the hook factor hook_KB | d = 1, D = 10, r2 = 2.5 | the body uses the body factor Kw, as the static body stress does | not executed | MeExtensionSprings.BodyFactorMismatch | MeExtensionSprings.CorrectedStressesAreLoadStresses |
| gears/spur_gear.py:192 | the third size band uses the coefficient 0.00815 | a size at the boundary of the second and third band | 0.000815, so the bands meet | not executed | SpurGears.HighBandAsWrittenJumps | SpurGears.MidAndHighBandsMeet |
| Gears/Transmission.py:102 | the overload factor for a medium-shock driver and a uniform load is 15 | medium shock with a uniform load | 1.5, so Ko grows with shock | not executed | Transmissions.KoAsWrittenBreaksOrder | Transmissions.KoMonotone |
| Gears/Transmission.py:305 | the contact hardness requirement is fed the bending stress | bending stress 100, contact stress 1000 | the contact stress | not executed | Transmissions.MinimalHardnessAsWrittenMissesContact | Transmissions.MinimalHardnessIsLeast |
| FatigueAnalysis/FatigueAnalysis.py:185-186 | the Gerber factor squares the mean ratio without the factor | alt = mean = 100, Se = 200, Sut = 1000 | the factor that puts the scaled load on the Gerber parabola | not executed | FatigueAnalyses.GerberAsWrittenOffParabola | FatigueAnalyses.Gerber |
| FatigueAnalysis/FatigueAnalysis.py:209-210 | the ASME-elliptic factor misses the square root | a reversed load at half of Se | the factor that puts the scaled load on the ellipse | not executed | FatigueAnalyses.AsmeAsWrittenIsSquared | FatigueAnalyses.Asme |
| FatigueAnalysis/FatigueAnalysis.py:226 | under torsion the Langer line uses 0.67 Sut | Sut = 1000, Sy = 500, alt = mean = 100 | the yield strength in shear | not executed | FatigueAnalyses.LangerAsWrittenOverstatesShear | FatigueAnalyses.LangerStatic |
| FatigueAnalysis/Stress.py:66 | the shape is compared with ' rectangle', with a leading space | the shape 'rectangle' | the plain name 'rectangle' is accepted | not executed | Stresses.RectangleRefusedAsWritten | Stresses.MaxShearStress |
| me_toolbox/fasteners/un_bolt.py:81 | the tensile strength returns the proof strength | a grade-5 bolt of 1/2 in | 120 kpsi, above the proof strength | not executed | Bolts.UnTensileAsWrittenReturnsProof | Bolts.UnProofBelowTensile |
| me_toolbox/bolts/threaded_fastener.py:39 | the threaded length in the grip is the whole grip | a shank that ends inside the grip | grip length minus the unthreaded length | not executed | ThreadedFasteners.LegacyBelowBoltStiffness | ThreadedFasteners.BoltStiffnessInSeries |
| me_toolbox/fasteners/threaded_fastener.py:25 | the constructor takes len() of the bolt, which defines no length | any bolt, grip and layers | the joint is built | not executed | ThreadedFasteners.ConstructorAsWrittenRefusesSoundJoint | ThreadedFasteners.NewThreadedFastener |
