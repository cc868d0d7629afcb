# Pilot and drone matching, modelled in Dafny

This project models the decision logic of a drone-operations assistant. The
assistant keeps a pilot roster, a drone fleet and a list of missions in
spreadsheets. For a mission, it works out which pilots and drones can be
assigned and which ones are turned down, and why.

The model has four modules:

- `Text` (`text.dfy`) covers the pieces of Python's `str` that the rules
  use:
  - ASCII `lower()`;
  - substring search (`pat in s`);
  - `split(",")`, which always yields at least one piece;
  - `strip()`, with Python's full set of white-space characters.
- `Tables` (`tables.dfy`) treats a spreadsheet as a sequence of records in
  sheet order:
  - a boolean mask is `Filter`;
  - an optional mask (`if arg: df = df[...]`) is `Narrow`;
  - `iloc[0]` of a mask is `FirstIndex`;
  - `IsSubseq` states that a result keeps the order of its table.
- `ConflictEngine` (`conflict_engine.dfy`) holds the four conflict
  predicates: date overlap, skill, certification and weather.
- `AssignmentEngine` (`assignment_engine.dfy`) holds the records and the
  five operations:
  - the roster filter and the fleet filter (functions);
  - the pilot cost calculator (a function);
  - mission matching: `AssignMission`, a method that runs the pilot loop
    (`MatchPilots`) and the drone loop (`MatchDrones`), each of which appends
    to its result lists;
  - urgent reassignment (a method).

### How matching is specified

Matching judges every pilot, and then every drone, with a first-rule-wins
decision, `JudgePilot` / `JudgeDrone`. The decision is a `Verdict`:

- `Skip`: dropped without a word;
- `Warn(text)`: turned down with a warning;
- `Accept(item)`: eligible.

`Accepted` and `Warnings` collect the verdicts of a whole sheet in sheet
order. The loop invariants of `MatchPilots` and `MatchDrones` tie each list
they build to these folds.

### Inputs and arithmetic

- The sheets are parameters, and so is "today".
- Dates are day numbers.
- Rates, costs and budgets are integers.

### An empty certification requirement

One might expect an empty required-certification list to mean that nothing
is required. It does not: `"".split(",")` is `[""]`, so an empty requirement
is one empty tag. That tag is met only by a pilot whose own list has an
empty field. See `ConflictEngine.EmptyRequirement` and
`ConflictEngine.EmptyRequirementRejectsSingleCertificate`.

## Model

| member | source | states |
|---|---|---|
| ConflictEngine.DateOverlap | app/conflict_engine.py:3-4 | `date_overlap` on inclusive intervals. For non-empty intervals it holds exactly when the later start is no later than the earlier end. |
| ConflictEngine.DateOverlapSymmetric | app/conflict_engine.py:3-4 | Swapping the two intervals gives the same overlap answer. |
| ConflictEngine.DateOverlapBounds | app/conflict_engine.py:3-4 | A non-empty interval overlaps itself. An interval that ends before another starts does not overlap it. |
| ConflictEngine.DateOverlapSharesDay | app/conflict_engine.py:3-4 | Two non-empty inclusive intervals overlap exactly when some day lies in both. |
| Text.Contains | app/conflict_engine.py:8 | The result is true exactly when the pattern occurs at some index of the text. |
| Text.Lower | app/conflict_engine.py:8 | `lower()` restricted to ASCII case mapping (see "## Left out"): it keeps the length, maps each upper-case ASCII letter to its lower-case letter and leaves every other character alone, so no upper-case ASCII letter remains. |
| Text.LowerForgetsCase | app/conflict_engine.py:8 | Lower-casing gives the same text whether applied to the original, the lower-cased or the upper-cased text. |
| ConflictEngine.SkillMismatch | app/conflict_engine.py:7-8 | The negated case-insensitive substring test, whose meaning as an occurrence index is `Text.Contains`. An empty required skill never mismatches. A required skill longer than the skill list always mismatches. |
| ConflictEngine.EmptySkillNeverMismatches | app/conflict_engine.py:7-8 | An empty required skill never mismatches. |
| ConflictEngine.SkillMismatchIgnoresCase | app/conflict_engine.py:7-8 | Upper- or lower-casing either argument leaves the skill test unchanged. |
| ConflictEngine.ListedSkillMatches | app/conflict_engine.py:7-8 | A skill written anywhere in the skill list, in any spelling that lower-cases to the same text, matches. |
| Text.Split | app/conflict_engine.py:12-13 | `split(",")` yields at least one piece, and no piece holds the separator. |
| Text.JoinSplit | app/conflict_engine.py:12-13 | Joining the pieces with the separator gives back the text. |
| Text.SplitJoin | app/conflict_engine.py:12-13 | Splitting a join of separator-free pieces gives back the pieces. |
| Text.SplitAround | app/conflict_engine.py:12-13 | Text joined at one separator splits into the concatenated piece lists. |
| Text.Strip | app/conflict_engine.py:12-13 | `strip()` never lengthens the text. `Text.StripShape` states exactly what it keeps. |
| Text.StripShape | app/conflict_engine.py:12-13 | `strip()` keeps a contiguous piece of the text with no white space at either end. Everything it removes is white space. |
| Text.StripIdempotent | app/conflict_engine.py:12-13 | Stripping twice is stripping once. |
| ConflictEngine.CertificationMismatch | app/conflict_engine.py:11-14 | True exactly when some stripped required tag, at some position of the required list, is not among the pilot's stripped tags. |
| ConflictEngine.CertificationMismatchMeaning | app/conflict_engine.py:11-14 | There is no mismatch exactly when every required field, stripped, equals some stripped field of the pilot's list. |
| ConflictEngine.CertificationReflexive | app/conflict_engine.py:11-14 | A list never mismatches itself. |
| ConflictEngine.CertificationMonotone | app/conflict_engine.py:11-14 | Adding tags to either end of the pilot's list keeps a no-mismatch result. |
| ConflictEngine.TokensAround | app/conflict_engine.py:12-13 | The tags of two lists joined by a comma are the tags of each list, concatenated. |
| ConflictEngine.EmptyRequirement | app/conflict_engine.py:12-14 | An empty requirement mismatches exactly when the pilot's list has no empty tag. |
| ConflictEngine.EmptyRequirementRejectsSingleCertificate | app/conflict_engine.py:12-14 | A pilot with one non-blank certificate and no comma fails an empty requirement. |
| ConflictEngine.SingleRequirement | app/conflict_engine.py:11-14 | A comma-free requirement mismatches exactly when its stripped text is not one of the pilot's tags. |
| ConflictEngine.WeatherConflict | app/conflict_engine.py:17-20 | True exactly when the forecast is "Rainy" and "IP43" occurs at no index of the rating. |
| ConflictEngine.WeatherConflictCases | app/conflict_engine.py:17-20 | Only the forecast "Rainy" can conflict. Under rain, a conflict means exactly that "IP43" is absent from the rating. |
| ConflictEngine.WeatherRatings | app/conflict_engine.py:17-20 | A rating containing "IP43" never conflicts. A rating shorter than four characters conflicts with rain. |
| Tables.Filter | app/assignment_engine.py:17 | A mask keeps exactly the rows that satisfy it, with their multiplicities, in table order. |
| Tables.Narrow | app/assignment_engine.py:19-23 | An optional mask keeps the rows that satisfy it when active, and every row otherwise, in table order. |
| Tables.SubseqTransitive | app/assignment_engine.py:17-23 | A filter of a filter keeps the order of the original table. |
| Tables.FirstIndex | app/assignment_engine.py:103-108 | Finds the index of the first matching row, or reports that no row matches. |
| AssignmentEngine.GetAvailablePilots | app/assignment_engine.py:14-25 | Each pilot keeps its roster multiplicity if it is Available and meets each given skill/location filter, and is absent otherwise. The result is in roster order. |
| AssignmentEngine.ListedPilots | app/assignment_engine.py:14-25 | Every listed pilot meets the filters, and every roster pilot that meets them is listed. |
| AssignmentEngine.UnfilteredPilots | app/assignment_engine.py:19-23 | Empty filters leave exactly the Available pilots. |
| AssignmentEngine.GetAvailableDrones | app/assignment_engine.py:58-90 | Each drone keeps its fleet multiplicity if it is Available, not past maintenance, and meets each given capability/location/weather filter, and is absent otherwise. The result is in fleet order. |
| AssignmentEngine.ListedDrones | app/assignment_engine.py:58-90 | Every listed drone meets the filters, and every fleet drone that meets them is listed. |
| AssignmentEngine.UnfilteredDrones | app/assignment_engine.py:61-69 | Empty filters leave exactly the Available drones whose maintenance date is today or later. |
| AssignmentEngine.CalculatePilotCost | app/assignment_engine.py:28-52 | The outcome is chosen in this order: "Pilot not found"; "Calculation failed: ..." for an unparsable start date, then for an unparsable end date; "Invalid date range" for a non-positive day count. Otherwise the total is the first such pilot's rate times the inclusive day count. |
| AssignmentEngine.CostAgreesWithEstimate | app/assignment_engine.py:44-49 | For the first pilot of a name, and a mission whose end is not before its start, the calculator's total over a mission's dates equals the cost estimate used in matching. |
| AssignmentEngine.Duration | app/assignment_engine.py:110-112 | The mission length in days, end included. It is positive exactly when the start is not after the end, and it equals the cost calculator's day count for the same dates. |
| AssignmentEngine.JudgePilot | app/assignment_engine.py:121-159 | Accepts exactly a pilot who passes every rule, at cost rate × duration. Skips exactly a pilot who is not Available, is elsewhere, or is free but lacks the skill. Otherwise it gives the assigned, certification or budget warning, whichever rule applies first. |
| AssignmentEngine.JudgeDrone | app/assignment_engine.py:165-191 | Accepts exactly an Available, co-located, free drone with no weather conflict. Skips exactly one that is not Available or is elsewhere. Otherwise it gives the deployed or weather warning, first rule first. |
| AssignmentEngine.Contribution | app/assignment_engine.py:121-191 | Each pilot or drone adds at most one entry in total, and only to the list its verdict names. It is the step of the loops of `MatchPilots` and `MatchDrones`. |
| AssignmentEngine.ListsBounded | app/assignment_engine.py:121-191 | The eligible list and the warning list are, together, no longer than the input. |
| AssignmentEngine.AcceptedMembers | app/assignment_engine.py:155-159 | An item is eligible exactly when some input element's verdict accepts it. |
| AssignmentEngine.WarningMembers | app/assignment_engine.py:130-152 | A text is a warning exactly when some input element's verdict warns with it. |
| AssignmentEngine.EligiblePilotsAreQualified | app/assignment_engine.py:121-159 | The eligible pilots are exactly the qualifying roster pilots, in roster order, each with its estimated cost. |
| AssignmentEngine.EligiblePilotsMeaning | app/assignment_engine.py:147-159 | A candidate is eligible exactly when it comes from a qualifying pilot. Its estimated cost is within the budget. |
| AssignmentEngine.PilotWarningsExplained | app/assignment_engine.py:129-153 | Every pilot warning names an Available, co-located pilot, with its reason. The assigned warning goes to a pilot with an assignment. The certification warning goes to a free pilot with the skill who lacks a certificate. The budget warning goes to a free pilot who passes both checks but costs more than the budget. |
| AssignmentEngine.AssignedPilotWarned | app/assignment_engine.py:129-133 | An Available, co-located pilot who is already assigned appears in the warnings. |
| AssignmentEngine.ExactMatchPilot | app/assignment_engine.py:135-159 | A free, co-located pilot whose skills and certifications equal the mission's is eligible within budget. Over budget, it draws the budget warning. |
| AssignmentEngine.InvertedDatesSkipBudget | app/assignment_engine.py:110-112 | With end before start, non-negative rates and a non-negative budget, acceptance no longer depends on the budget. |
| AssignmentEngine.EligibleDronesAreQualified | app/assignment_engine.py:165-191 | The eligible drones are exactly the ids of the qualifying drones, in fleet order. |
| AssignmentEngine.RainyMissionDrones | app/assignment_engine.py:182-191 | Under rain, every eligible drone comes from a qualifying drone whose rating contains "IP43". |
| AssignmentEngine.DroneWarningsExplained | app/assignment_engine.py:176-189 | Every drone warning names an Available, co-located drone. It is either the deployed warning for one with an assignment, or the weather warning for a free one with a conflict. |
| AssignmentEngine.MaintenanceNotChecked | app/assignment_engine.py:168-191 | Matching ignores the maintenance date. |
| AssignmentEngine.Matching | app/assignment_engine.py:121-199 | The reply for a found mission carries its id. Its eligible pilots are the candidates of the pilots passing every rule, in roster order. Its eligible drones are the ids of the drones passing every rule, in fleet order. |
| AssignmentEngine.MatchPilots | app/assignment_engine.py:114-159 | The pilot loop. In roster order, it builds exactly the accepted candidates and the warnings of every pilot's first-rule-wins verdict. |
| AssignmentEngine.MatchDrones | app/assignment_engine.py:165-191 | The drone loop. In fleet order, it builds exactly the accepted ids and the warnings of every drone's first-rule-wins verdict. |
| AssignmentEngine.AssignMission | app/assignment_engine.py:97-199 | An unknown id gives the "Mission not found" error. Otherwise the reply is the matching of the first mission row with that id: the lists the two loops build equal the accepted items and warnings of every pilot and drone, in sheet order. |
| AssignmentEngine.UrgentReassignment | app/assignment_engine.py:206-226 | An unknown id gives the not-found error. A priority other than High or Urgent gives "Mission is not high priority". Otherwise the matching is returned when it has an eligible pilot, and the fixed advisory message is returned when it has none. |

## Left out

- Spreadsheet access (`load_pilots`, `load_drones`, `load_missions`, `save_pilots`), the web routes and the free-text command dispatcher are not part of this model. The sheets are parameters.
- In `UrgentReassignment`, the sheets are read once. In the program, `assign_mission` reloads them, so a sheet that changed in between is not modelled.
- Date parsing is not modelled. Dates are day numbers. The ambient `datetime.today()` is the parameter `today`. A parse failure in the cost calculator is the abstract `Unparsable(reason)`, and its exception text is the reason. An unparsable mission date makes `assign_mission` raise, and that is not modelled.
- Rates, costs and budgets are integers. The `float(...)` conversion in the cost calculator, and its failure branch, are not modelled.
- `GetAvailablePilots`: pandas `str.contains` treats the filter as a regular expression. The model treats it as a literal case-insensitive substring. Missing cells (`na=False`) are not modelled; every field is a string.
- `GetAvailableDrones`: the same regular-expression and missing-cell simplifications apply to the capability filter.
- `Text.Lower`: `lower()` (and `upper()`, as `Text.Upper`) changes ASCII letters only. Python also maps non-ASCII letters (`'É'.lower()` is `'é'`) and can change the length (`'İ'.lower()` has two characters, `'ß'.upper()` is `'SS'`). So the length clause of `ConflictEngine.SkillMismatch` (a required skill longer than the skill list always mismatches), `Text.LowerForgetsCase` and `ConflictEngine.SkillMismatchIgnoresCase` hold of the model's ASCII case mapping, not of Python's on arbitrary text.
- Empty sheets are not modelled as the program treats them. A sheet with a header row and no data rows gives a frame without columns, so the column lookups `df["status"]` (app/assignment_engine.py:17, :61), `df["name"]` (:31, outside the `try`) and `missions["project_id"]` (:103, :209) raise a KeyError. On the same input the model returns `[]`, `CostError("Pilot not found")` or `Error(MissionNotFound)`.
- Extra sheet columns are left out. The records carry only the columns the rules read.
- Pandas mechanics (`iterrows`, `to_dict`, masks) are represented as sequences of records.
- Reading the list `eligible_pilots` as a truth value is modelled as `!= []`.
