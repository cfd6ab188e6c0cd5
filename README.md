# Odoo project planner — a verified model of its planning core

The Odoo project planner is a browser application. People answering a
questionnaire describe an Odoo implementation project:

- the phases to run: Clarity, Implementation and Adoption;
- the Odoo modules and their hours;
- custom modules;
- the team.

From those answers it builds a project plan, and it exports that plan as
CSV files that Odoo's importer reads. The plan is made of deliverables,
their subtasks and dated milestones.

This project models the planning core of the application in Dafny and
proves properties of the model:

- **Plan generator** (`services/planGenerator.js`). It turns the responses
  into the plan:
  - Clarity: three packages, split by fixed percentages;
  - Implementation: Odoo setup, one work package per module with positive
    hours, one per named custom module with hours, integrations and
    multi-warehouse;
  - Adoption: training, go-live and monthly support.

  One id counter runs through the whole plan, and tasks are assigned to
  team members by role. Modules `PlanModel`, `PlanWording`,
  `ModuleActivities`, `PlanBlocks`, `PlanGenerator`, `PlanFacts`,
  `Assignment` and `FlatTasks`.
- **Task consolidator** (`services/taskConsolidator.js`). It groups the raw
  tasks of a task library into deliverables, matching them by title and
  category patterns, then normalises each deliverable's subtask hours.
  Modules `ConsolidatorConfig`, `ConsolidatorParts`,
  `HourNormalization`, `TaskConsolidator` and `ConsolidatorIds`.
- **Plan view state** (`hooks/useProjectPlan.js`):
  - generating, deleting, restoring and editing tasks;
  - expanding deliverables;
  - the active views and their statistics.

  The class `ProjectPlanState.ProjectPlanHook`.
- **Questionnaire state** (`hooks/useQuestionnaire.js`):
  - the wizard's responses and navigation;
  - module toggling and hours;
  - custom modules and templates;
  - hour totals, `canGenerate`, and the visibility conditions of sections
    and questions.

  The class `QuestionnaireState.Questionnaire`, plus modules
  `ModuleHoursMap` and `QuestionConditions`.
- **CSV exporter** (`services/csvExporter.js`):
  - the project, milestone, task and deliverable rows;
  - the Odoo tag and priority labels;
  - filename sanitising.

  Module `CsvExport`.
- **Date helpers** (`utils/dateHelpers.js`): `addDays`, `addWeeks`,
  `addMonths`, `getNextWorkday`, `getBusinessDays` and
  `calculatePhaseDates`, on day numbers. Module `Dates`.
- **Shared pieces**: `Common` holds `Option`, `Math.round`, sums and id
  ranges. `Text` holds `toLowerCase`, `includes`, the first-occurrence
  `replace`, `join` and number-to-text.

How the model is shaped:

- Code that builds values by loops becomes a `method` with a `while` loop.
  The method is proved equal to a specification function written the way
  the loop walks: the list so far, then the next element. The properties
  are lemmas about those functions.
- The two hooks, which keep React state, become classes. Their fields are
  the state, their methods update the fields, and their `ensures` give the
  whole new state.
- A response field that JavaScript reads with `|| default` is an `int`
  in the model, where 0 stands for a missing value.
- A `module_hours` object is a list of (name, hours) entries. It keeps
  insertion order, and its keys are distinct.
- Dates are `Option<int>` day numbers. Day 0 is 1970-01-01, a Thursday,
  and `None` is the empty string.
- `today`, which the source reads from the clock, is a parameter.

## Model

Each row names a member, the source lines it models, and what its contract states.

| member | source | states |
|---|---|---|
| Common.RoundQuotientBounds | odoo-planner-app/src/services/planGenerator.js:425-425 | `RoundQuotient(num, den)` is `Math.round(num / den)`: twice the quotient is within one half of `2 num / den`, in both signs of the divisor |
| Common.RoundPercentBounds | odoo-planner-app/src/services/planGenerator.js:425-425 | `Math.round(h * p / 100)` of a share between 0 and 100 percent lies between 0 and `h` |
| Common.RoundPercentExact | odoo-planner-app/src/services/planGenerator.js:623-623 | a share that divides exactly is not rounded |
| Text.LowerIdempotent | odoo-planner-app/src/services/taskConsolidator.js:88-89 | lower-casing (`toLowerCase`, ASCII letters) twice is lower-casing once |
| Text.LowerHasNoCapitals | odoo-planner-app/src/services/taskConsolidator.js:88-89 | a lower-cased text has no capital letter left |
| Text.IndexOfFromFirst | odoo-planner-app/src/services/taskConsolidator.js:88-89 | the index found is a match, there is none before it, and when none is found there is no match at all |
| Text.ContainsIff | odoo-planner-app/src/services/taskConsolidator.js:151-152 | `includes` holds exactly when the pattern occurs at some position |
| Text.ContainsSelfAndEmpty | odoo-planner-app/src/services/taskConsolidator.js:151-152 | every text includes itself and the empty text |
| Text.ReplaceFirstAbsent | odoo-planner-app/src/services/taskConsolidator.js:165-166 | `replace` with a text pattern that does not occur changes nothing |
| Text.ReplaceFirstSplit | odoo-planner-app/src/services/taskConsolidator.js:165-166 | `replace` with a text pattern replaces only its first occurrence, by the replacement with its `$` patterns expanded, and by the replacement itself when it has no dollar sign |
| Text.SubstitutionPlain | odoo-planner-app/src/services/taskConsolidator.js:276-277 | a replacement without a dollar sign is inserted unchanged |
| Text.SubstitutionPatterns | odoo-planner-app/src/services/taskConsolidator.js:276-277 | `$&` stands for the matched text and `$$` for one dollar sign, while `$1` stays as written because a text pattern has no groups |
| Text.ReplaceDollarName | odoo-planner-app/src/services/taskConsolidator.js:276-277 | a custom-module name `A$&` put into `{name}` yields `A{name}`, not the name |
| Text.JoinLength | odoo-planner-app/src/services/planGenerator.js:627-627 | `join(', ')` is as long as the parts plus one separator between each two |
| Text.NatToStringDigits | odoo-planner-app/src/services/planGenerator.js:889-902 | the decimal text of a number is all digits, with no leading zero |
| Text.NatToStringRoundTrip | odoo-planner-app/src/services/planGenerator.js:889-902 | reading the decimal text of a number back gives the number |
| Text.IntToStringNegative | odoo-planner-app/src/services/taskConsolidator.js:222-250 | a negative number's text is `-` followed by the digits of its magnitude |
| Text.IntToStringNonNegative | odoo-planner-app/src/services/taskConsolidator.js:222-250 | a non-negative number's text is its digits |
| Dates.Weekday | odoo-planner-app/src/utils/dateHelpers.js:47-61 | `getDay`: the weekday of a day number is in 0..6 |
| Dates.AddDaysEmpty | odoo-planner-app/src/utils/dateHelpers.js:12-27 | `addDays` and `addWeeks` of the empty date give the empty date |
| Dates.AddDaysCompose | odoo-planner-app/src/utils/dateHelpers.js:12-17 | adding `a` days and then `b` days is adding `a + b` days |
| Dates.AddWeeksKeepsWeekday | odoo-planner-app/src/utils/dateHelpers.js:25-27 | `addWeeks` keeps the weekday |
| Dates.CivilFromDays | odoo-planner-app/src/utils/dateHelpers.js:35-40 | the civil date of a day number has a month in 1..12 |
| Dates.AddMonths | odoo-planner-app/src/utils/dateHelpers.js:35-40 | `addMonths` is empty exactly when its date is |
| Dates.CivilEpoch | odoo-planner-app/src/utils/dateHelpers.js:35-40 | day 0 is 1970-01-01, both ways |
| Dates.CivilLeapDay | odoo-planner-app/src/utils/dateHelpers.js:35-40 | 2024-02-29 converts both ways |
| Dates.AddMonthsRunsOver | odoo-planner-app/src/utils/dateHelpers.js:35-40 | `setMonth` overflow: one month after 2024-01-31 is 2024-03-02 |
| Dates.AddMonthsAcrossYear | odoo-planner-app/src/utils/dateHelpers.js:35-40 | three months after 2023-11-15 is 2024-02-15 |
| Dates.NextWorkday | odoo-planner-app/src/utils/dateHelpers.js:47-61 | `getNextWorkday` is empty exactly when its date is, and moves a date forward by at most two days |
| Dates.NextWorkdayIsFirstWorkday | odoo-planner-app/src/utils/dateHelpers.js:47-61 | the next workday is not a weekend day, and every day before it from the date on is one |
| Dates.NextWorkdayIdempotent | odoo-planner-app/src/utils/dateHelpers.js:47-61 | the next workday of a next workday is itself |
| Dates.GetBusinessDays | odoo-planner-app/src/utils/dateHelpers.js:69-85 | the loop counts the weekdays from start to end inclusive, and 0 when either date is empty |
| Dates.WorkdaysAtMostDays | odoo-planner-app/src/utils/dateHelpers.js:69-85 | there are at most as many business days as days, and none in an empty range |
| Dates.WorkdaysSplit | odoo-planner-app/src/utils/dateHelpers.js:69-85 | the business days of a range are those of its two halves |
| Dates.WorkdaysWeeks | odoo-planner-app/src/utils/dateHelpers.js:69-85 | `k` whole weeks hold exactly `5 k` business days |
| Dates.CalculatePhaseDates | odoo-planner-app/src/utils/dateHelpers.js:118-148 | a phase has dates exactly when it is enabled. Clarity runs from the start for its weeks. Implementation starts on the next workday after Clarity and ends after its weeks, or at the deadline when Adoption is off. Adoption starts on the next workday after the previous phase and ends at the deadline |
| Dates.PhasesInSequence | odoo-planner-app/src/utils/dateHelpers.js:118-148 | with all three phases on and non-negative weeks, the phase boundaries never go backwards and each later phase starts on a weekday |
| Assignment.WithRole | odoo-planner-app/src/services/planGenerator.js:985-986 | the members with a role are drawn from the team |
| Assignment.WithRoleMembers | odoo-planner-app/src/services/planGenerator.js:985-986 | a member is in the role's pool exactly when it is in the team with that role in the roles table |
| Assignment.AssignTask | odoo-planner-app/src/services/planGenerator.js:978-980 | an empty team assigns nobody (`''`) |
| Assignment.ImplementationRoundRobin | odoo-planner-app/src/services/planGenerator.js:988-993 | with a developer on the roster, Implementation work repeats after as many ids as there are developers, and that many consecutive ids reach every developer |
| Assignment.ConsultantRoundRobin | odoo-planner-app/src/services/planGenerator.js:1002-1007 | with a consultant on the roster, Clarity and Adoption work repeats after as many ids as there are consultants, and that many consecutive ids reach every consultant |
| Assignment.RoundRobin | odoo-planner-app/src/services/planGenerator.js:991-992 | indexing a non-empty pool by the id modulo its size repeats after as many ids as the pool has members, and that many consecutive ids reach every member |
| Assignment.AssignTaskInTeam | odoo-planner-app/src/services/taskConsolidator.js:519-554 | with a non-empty team the assignee is a team member |
| Assignment.ImplementationPrefersDevelopers | odoo-planner-app/src/services/planGenerator.js:988-993 | with a developer in the team, Implementation tasks go to a developer |
| Assignment.ClarityAndAdoptionPreferConsultants | odoo-planner-app/src/services/planGenerator.js:1002-1007 | with a consultant in the team, Clarity and Adoption tasks go to a consultant |
| ModuleActivities.FindEntry | odoo-planner-app/src/services/planGenerator.js:84-87 | the catalog key found matches the module name ignoring case, and it is the first such key; none is found only when no key matches |
| ModuleActivities.KnownModuleActivities | odoo-planner-app/src/services/planGenerator.js:84-98 | a module whose name matches a catalog key, ignoring case, gets the first matching key's activities |
| ModuleActivities.UnknownModuleActivities | odoo-planner-app/src/services/planGenerator.js:99-110 | a module that matches no catalog key gets the default activities |
| ModuleActivities.FindEntryIgnoresCase | odoo-planner-app/src/services/planGenerator.js:84-87 | two names that differ only in case get the same entry |
| FlatTasks.SubtaskRowsAt | odoo-planner-app/src/services/planGenerator.js:913-957 | subtask row `j` is the flat row of subtask `j` under its deliverable |
| FlatTasks.PushSubtaskRowsIsAppend | odoo-planner-app/src/services/planGenerator.js:937-953 | the inner loop appends the subtask rows to the rows so far |
| FlatTasks.GenerateFlatTaskList | odoo-planner-app/src/services/planGenerator.js:913-957 | the loop builds each deliverable's row followed by its subtasks' rows, in order (`Flat`) |
| FlatTasks.FlatLength | odoo-planner-app/src/services/planGenerator.js:913-957 | the flat list has one row per deliverable and one per subtask |
| FlatTasks.FlatIds | odoo-planner-app/src/services/planGenerator.js:913-957 | the ids of the flat rows, in order, are the plan's ids |
| FlatTasks.FlatDeliverableRow | odoo-planner-app/src/services/planGenerator.js:918-935 | deliverable `k` is at the row after all earlier deliverables and their subtasks |
| FlatTasks.FlatSubtaskRow | odoo-planner-app/src/services/planGenerator.js:937-953 | subtask `j` of deliverable `k` comes `1 + j` rows after its deliverable |
| FlatTasks.SubtaskRowLinks | odoo-planner-app/src/services/taskConsolidator.js:456-500 | a subtask row names its deliverable as parent and carries its own id and hours. A deliverable row has no parent. In the generator (not the consolidator, whose subtasks keep their own milestone) a subtask row takes the deliverable's milestone |
| HourNormalization.NormalizeSubtaskHours | odoo-planner-app/src/services/taskConsolidator.js:407-425 | the loop scales each subtask but the last by `target / sum`, rounded, and gives the last one the remainder |
| HourNormalization.ScaledByOne | odoo-planner-app/src/services/taskConsolidator.js:407-425 | scaling by the subtasks' own sum changes nothing |
| HourNormalization.NormalizeSum | odoo-planner-app/src/services/taskConsolidator.js:407-425 | after normalising, the subtask hours add up to the target whenever they did not add up to 0; an empty or all-zero list is left alone |
| HourNormalization.NormalizeAt | odoo-planner-app/src/services/taskConsolidator.js:407-425 | normalising changes only hours; every subtask but the last gets its rounded share, and the last the remainder |
| HourNormalization.NormalizeIds | odoo-planner-app/src/services/taskConsolidator.js:407-425 | normalising keeps the subtask ids |
| HourNormalization.NormalizeIdempotent | odoo-planner-app/src/services/taskConsolidator.js:407-425 | normalising twice is normalising once |
| HourNormalization.NormalizeNegativeRemainder | odoo-planner-app/src/services/taskConsolidator.js:418-421 | four one-hour subtasks normalised to 2 hours leave the last at −1: the remainder can go negative |
| PlanBlocks.ClarityPackageShape | odoo-planner-app/src/services/planGenerator.js:420-590 | a Clarity package keeps its hours and milestone and has three subtasks whose hours are the three rounded shares; its four ids are consecutive |
| PlanBlocks.ClarityPhaseShape | odoo-planner-app/src/services/planGenerator.js:420-590 | Clarity is three packages at 40, 35 and 25 percent with their milestones, three subtasks each, and twelve consecutive ids |
| PlanBlocks.ClarityPhaseTotal | odoo-planner-app/src/services/planGenerator.js:425-535 | Clarity's hours are the three rounded shares of its budget |
| PlanBlocks.ClarityPhaseHoursNearBudget | odoo-planner-app/src/services/planGenerator.js:425-535 | Clarity's hours are within one hour of its budget |
| PlanBlocks.ClarityPhaseRoundingDrift | odoo-planner-app/src/services/planGenerator.js:425-535 | rounding drifts: a budget of 2 hours gives 3, and a budget of 1 gives 0 |
| PlanBlocks.ClarityPhaseFortyHours | odoo-planner-app/src/services/planGenerator.js:425-470 | 40 hours split as 16, 14 and 10, and the mapping package's own subtasks add up to 15 |
| PlanBlocks.OdooSetupShape | odoo-planner-app/src/services/planGenerator.js:343-415 | the setup package has 8 hours, its subtasks add up to them, it takes the go-live milestone and five consecutive ids |
| PlanBlocks.ModulePackageShape | odoo-planner-app/src/services/planGenerator.js:595-669 | a module package keeps its hours, with its title as milestone. Its three subtasks take 70, 15 and 15 percent, name the package as parent, and describe the module's configuration, migration and testing activities joined with `, `. Its four ids are consecutive |
| PlanBlocks.ModulePackageRoundingDrift | odoo-planner-app/src/services/planGenerator.js:623-653 | an 11-hour module splits as 8, 2 and 2, which is 12 hours |
| PlanBlocks.CustomPackageShape | odoo-planner-app/src/services/planGenerator.js:674-754 | a custom package has the module's hours (20 when missing) and its own description or the default one, subtasks at 60, 25 and 15 percent, and four consecutive ids |
| PlanBlocks.IntegrationPackageShape | odoo-planner-app/src/services/planGenerator.js:228-282 | the integration package has 16 hours in subtasks adding up to them, names the integration list, and takes four consecutive ids |
| PlanBlocks.WarehousePackageShape | odoo-planner-app/src/services/planGenerator.js:285-302 | the warehouse package has 4 hours per warehouse (2 warehouses when missing), medium priority, no subtasks and one id |
| PlanBlocks.TrainingPackageShape | odoo-planner-app/src/services/planGenerator.js:768-821 | training keeps its hours, with subtasks at 35, 50 and 15 percent and four consecutive ids |
| PlanBlocks.GoLivePackageExact | odoo-planner-app/src/services/planGenerator.js:824-869 | go-live's two subtasks add up exactly to its hours (preparation gets 25 percent, the rest the remainder) |
| PlanBlocks.MonthlySubtaskAt | odoo-planner-app/src/services/planGenerator.js:889-902 | support subtask `m` is month `m + 1` with the next id |
| PlanBlocks.MonthlySubtasksShape | odoo-planner-app/src/services/planGenerator.js:889-902 | there is one support subtask per month, they add up to hours per month times months, and their ids are consecutive |
| PlanBlocks.GenerateSupport | odoo-planner-app/src/services/planGenerator.js:872-905 | the months loop builds the support package with the months' subtasks |
| PlanBlocks.GenerateAdoptionPhase | odoo-planner-app/src/services/planGenerator.js:759-908 | the method builds Adoption as specified (`AdoptionPhase`) |
| PlanBlocks.SupportPartExact | odoo-planner-app/src/services/planGenerator.js:872-905 | with positive months and hours per month, support is one package of their product whose month subtasks add up to it |
| PlanBlocks.AdoptionPhaseSplit | odoo-planner-app/src/services/planGenerator.js:759-908 | Adoption is training, then go-live, then support, each starting at the id after the previous ones |
| PlanBlocks.AdoptionPhaseIds | odoo-planner-app/src/services/planGenerator.js:759-908 | Adoption's ids are consecutive from its first id, as many as it counts |
| PlanGenerator.PositiveEntries | odoo-planner-app/src/services/planGenerator.js:184-185 | the entries kept are as many as those with positive hours |
| PlanGenerator.EligibleCustoms | odoo-planner-app/src/services/planGenerator.js:207-208 | the custom modules kept are as many as those with a name and positive hours |
| PlanGenerator.ModuleStep | odoo-planner-app/src/services/planGenerator.js:184-204 | entry `i` adds a work package ten ids after the previous one and a milestone with the next order exactly when its hours are positive |
| PlanGenerator.CustomStep | odoo-planner-app/src/services/planGenerator.js:207-225 | custom module `j` adds a package and a milestone exactly when it has a name and positive hours |
| PlanGenerator.GenerateModulePackages | odoo-planner-app/src/services/planGenerator.js:184-204 | the module loop builds the module packages and milestones (orders from 11) and advances the counter by 10 per package |
| PlanGenerator.GenerateCustomPackages | odoo-planner-app/src/services/planGenerator.js:207-225 | the custom loop builds the custom packages and milestones and advances the counter by 10 per package |
| PlanGenerator.GenerateExtras | odoo-planner-app/src/services/planGenerator.js:228-302 | integrations and warehouse are added as specified and leave the counter at the phase's end |
| PlanGenerator.GenerateImplementationPhase | odoo-planner-app/src/services/planGenerator.js:172-303 | Implementation is setup, modules, custom modules, then integration and warehouse, with module then custom milestones |
| PlanGenerator.GenerateClarityBlock | odoo-planner-app/src/services/planGenerator.js:148-169 | the Clarity block and its milestones are as specified, and the counter then stands at Implementation's first id |
| PlanGenerator.GenerateImplementationBlock | odoo-planner-app/src/services/planGenerator.js:172-303 | the Implementation block and milestones are as specified, and the counter then stands at Adoption's first id |
| PlanGenerator.GenerateAdoptionBlock | odoo-planner-app/src/services/planGenerator.js:306-316 | the Adoption block and its order-100 milestone are as specified |
| PlanGenerator.GenerateProjectPlan | odoo-planner-app/src/services/planGenerator.js:115-338 | the plan's deliverables and milestones are the specified ones. The flat list is built from the deliverables. The project info carries the allocated hours. The stats count the deliverables, the subtasks, the rows (deliverables plus subtasks) and the hours |
| PlanFacts.PositiveEntriesMembers | odoo-planner-app/src/services/planGenerator.js:184-185 | an entry gets a work package exactly when it is in the responses with positive hours |
| PlanFacts.EligibleCustomsMembers | odoo-planner-app/src/services/planGenerator.js:207-208 | a custom module gets a package exactly when it has a name and positive hours |
| PlanFacts.ModulePackageAt | odoo-planner-app/src/services/planGenerator.js:184-204 | the `k`-th module package is that of the `k`-th positive entry, at id `start + 10 k`, and its milestone has order `first + k` |
| PlanFacts.ModuleMilestoneMatchesPackage | odoo-planner-app/src/services/planGenerator.js:184-204 | each module milestone names its package's milestone and phase |
| PlanFacts.CustomPackageAt | odoo-planner-app/src/services/planGenerator.js:207-225 | the `k`-th custom package is that of the `k`-th eligible custom module, at id `start + 10 k`, with milestone order `first + k` |
| PlanFacts.CustomMilestoneMatchesPackage | odoo-planner-app/src/services/planGenerator.js:207-225 | each custom milestone names its package's milestone and phase |
| PlanFacts.ModulePackagesIds | odoo-planner-app/src/services/planGenerator.js:184-204 | the module packages' ids increase inside their block of ten ids per package |
| PlanFacts.CustomPackagesIds | odoo-planner-app/src/services/planGenerator.js:207-225 | the custom packages' ids increase inside their block of ten ids per package |
| PlanFacts.ImplementationPhaseUnfold | odoo-planner-app/src/services/planGenerator.js:172-303 | Implementation is setup, then modules, then custom modules, then integration and warehouse |
| PlanFacts.ImplementationPhaseIds | odoo-planner-app/src/services/planGenerator.js:172-303 | Implementation's ids increase inside its id range |
| PlanFacts.PlanIdsIncreasing | odoo-planner-app/src/services/planGenerator.js:115-328 | the ids of the whole plan increase from 1 and stay below the final counter |
| PlanFacts.PlanTaskIdsDistinct | odoo-planner-app/src/services/planGenerator.js:319-328 | no two rows of the flat task list share an id; their ids increase down the list |
| PlanFacts.ModuleMilestonesOrders | odoo-planner-app/src/services/planGenerator.js:197-201 | module milestones take consecutive orders, one per positive entry |
| PlanFacts.CustomMilestonesOrders | odoo-planner-app/src/services/planGenerator.js:216-221 | custom milestones take consecutive orders, one per eligible module |
| PlanFacts.ImplementationMilestonesOrders | odoo-planner-app/src/services/planGenerator.js:177-225 | Implementation's milestones have the orders 11, 12, …, one per package |
| PlanFacts.ClarityAndAdoptionOrders | odoo-planner-app/src/services/planGenerator.js:154-316 | Clarity's milestone orders increase within 1..10, and Adoption's is 100 |
| PlanFacts.PlanMilestonesOrdered | odoo-planner-app/src/services/planGenerator.js:115-316 | with at most 89 module and custom packages, the milestone orders strictly increase |
| PlanFacts.MilestoneOrderCollision | odoo-planner-app/src/services/planGenerator.js:197-316 | with exactly 90 packages, the last module milestone and the Adoption milestone both have order 100 |
| PlanFacts.ModulePackagesHours | odoo-planner-app/src/services/planGenerator.js:184-204 | the module packages' hours are the positive entries' hours |
| PlanFacts.PositiveEntriesHours | odoo-planner-app/src/services/planGenerator.js:122-130 | with no negative hours, the positive entries hold all the module hours |
| PlanFacts.CustomPackagesHours | odoo-planner-app/src/services/planGenerator.js:207-225 | the custom packages' hours are the eligible modules' hours |
| PlanFacts.EligibleCustomsHours | odoo-planner-app/src/services/planGenerator.js:122-130 | when every custom module with hours has a name, the eligible modules hold all the custom hours |
| PlanFacts.ImplementationPhaseHours | odoo-planner-app/src/services/planGenerator.js:172-303 | Implementation's hours are 8 for setup, plus the positive module hours, plus the eligible custom hours, plus integration and warehouse |
| PlanFacts.ImplementationAgainstBudget | odoo-planner-app/src/services/planGenerator.js:122-303 | with no negative hours and no unnamed custom module with hours, Implementation's hours are the budget plus 8 plus the extras |
| PlanFacts.AdoptionPhaseHours | odoo-planner-app/src/services/planGenerator.js:759-908 | Adoption's hours are training, go-live and monthly support, each counted only when positive |
| PlanFacts.AdoptionMatchesBudget | odoo-planner-app/src/services/planGenerator.js:122-130 | with all four adoption answers positive, the Adoption packages add up to the budget |
| PlanFacts.AdoptionDefaultsExceedBudget | odoo-planner-app/src/services/planGenerator.js:763-765 | with the answers left empty the budget is 0 while the defaults (24 + 8 + 10 × 2) give 52 hours |
| PlanFacts.ClarityAgainstBudget | odoo-planner-app/src/services/planGenerator.js:122-169 | Clarity's hours are within one hour of its budget, and both are 0 when it is off |
| ConsolidatorParts.Select | odoo-planner-app/src/services/taskConsolidator.js:82-93 | a filter keeps at most the tasks it is given |
| ConsolidatorParts.MatchesAnyIff | odoo-planner-app/src/services/taskConsolidator.js:85-90 | a task matches a group exactly when one of the group's patterns occurs in its title or category |
| ConsolidatorParts.PatternCaseIgnored | odoo-planner-app/src/services/taskConsolidator.js:88-89 | pattern matching ignores the pattern's case |
| ConsolidatorParts.SelectMembers | odoo-planner-app/src/services/taskConsolidator.js:82-93 | a task is selected exactly when it is one of the tasks and meets the criterion |
| ConsolidatorParts.TaskSubtaskAt | odoo-planner-app/src/services/taskConsolidator.js:96-120 | matched task `k` becomes the subtask with id `start + k` |
| ConsolidatorParts.TaskSubtaskIds | odoo-planner-app/src/services/taskConsolidator.js:96-120 | the subtasks of the matched tasks take consecutive ids |
| ConsolidatorParts.TaskSubtasksPositive | odoo-planner-app/src/services/taskConsolidator.js:385 | with the fallback to 2 applied to the unrounded share (so only a zero product or a zero sum gives 2), a non-negative sum of estimates, a budget of 0 or at least that sum, and a non-empty task list, the subtasks hold at least one hour per task |
| ConsolidatorParts.GroupDeliverableFacts | odoo-planner-app/src/services/taskConsolidator.js:79-128 | a group's deliverable has its id, hours and phase, one subtask per matched task at the following ids, and subtasks adding up to its hours whenever their shares do not all round to 0 |
| ConsolidatorParts.ModuleGroupDeliverableFacts | odoo-planner-app/src/services/taskConsolidator.js:155-204 | a module group's deliverable has its id, hours and module, one subtask per matched task at the following ids, and subtasks adding up to its hours when some task matched and the budget covers the estimate |
| ConsolidatorParts.GroupSharesCanVanish | odoo-planner-app/src/services/taskConsolidator.js:110-122 | three one-hour tasks sharing one hour all round to 0 and stay at 0: the subtasks then do not add up to the deliverable |
| ConsolidatorParts.WarehouseSubtaskAt | odoo-planner-app/src/services/taskConsolidator.js:222-250 | warehouse subtask `k` is warehouse `k + 1` with id `start + k` |
| ConsolidatorParts.WarehouseSubtasksSum | odoo-planner-app/src/services/taskConsolidator.js:222-250 | the warehouse subtasks add up to hours per warehouse times the count |
| ConsolidatorParts.WarehouseDeliverableFacts | odoo-planner-app/src/services/taskConsolidator.js:222-250 | the warehouse subtasks follow the deliverable's id. With a non-negative count there is one per warehouse (2 when missing), and they add up to the deliverable's hours. Each has the hours per warehouse |
| ConsolidatorParts.CustomDeliverableFacts | odoo-planner-app/src/services/taskConsolidator.js:269-346 | a custom deliverable has its slot's hours (20 when missing) and three subtasks at the next three ids with the rounded 60, 25 and 15 percent shares |
| ConsolidatorParts.CustomSplitCanOvershoot | odoo-planner-app/src/services/taskConsolidator.js:305-346 | a 10-hour custom module splits as 6, 3 and 2, which is 11 hours |
| TaskConsolidator.CalculateImplementationHours | odoo-planner-app/src/services/taskConsolidator.js:430-450 | an explicit implementation budget wins; otherwise 20 hours per module plus the custom slots' hours |
| TaskConsolidator.IdSpanIsIdCount | odoo-planner-app/src/services/taskConsolidator.js:35-47 | the counter's advance over a list of deliverables is the number of ids they hold |
| TaskConsolidator.ClarityStep | odoo-planner-app/src/services/taskConsolidator.js:79-128 | group `i` adds its deliverable at the next id when some task matches it, nothing otherwise |
| TaskConsolidator.AdoptionStep | odoo-planner-app/src/services/taskConsolidator.js:351-402 | every Adoption group adds its deliverable at the next id |
| TaskConsolidator.ModuleStep | odoo-planner-app/src/services/taskConsolidator.js:155-204 | module group `i` adds its deliverable at the next id when some of the module's tasks match it |
| TaskConsolidator.CustomPush | odoo-planner-app/src/services/taskConsolidator.js:269-297 | a named custom slot adds its deliverable at the next id |
| TaskConsolidator.CustomSkip | odoo-planner-app/src/services/taskConsolidator.js:269-272 | an unnamed custom slot adds nothing |
| TaskConsolidator.ClarityIdSpan | odoo-planner-app/src/services/taskConsolidator.js:79-128 | Clarity advances the counter by one per matched group plus one per matched task |
| TaskConsolidator.AdoptionIdSpan | odoo-planner-app/src/services/taskConsolidator.js:351-402 | Adoption advances the counter by one per group plus one per matched task |
| TaskConsolidator.ModulesIdSpan | odoo-planner-app/src/services/taskConsolidator.js:148-204 | the modules advance the counter by one per matched module group plus one per matched task |
| TaskConsolidator.SpecialIdSpan | odoo-planner-app/src/services/taskConsolidator.js:207-266 | security, warehouse and its subtasks, and integrations advance the counter by their own ids |
| TaskConsolidator.CustomIdSpan | odoo-planner-app/src/services/taskConsolidator.js:269-297 | each named custom slot advances the counter by 4 |
| TaskConsolidator.ImplementationIdSpan | odoo-planner-app/src/services/taskConsolidator.js:133-300 | Implementation advances the counter by the modules', the fixed deliverables' and the custom slots' spans |
| TaskConsolidator.BuildGroupDeliverable | odoo-planner-app/src/services/taskConsolidator.js:96-125 | the deliverable object, then `normalizeSubtaskHours`, is the specified group deliverable |
| TaskConsolidator.BuildModuleGroupDeliverable | odoo-planner-app/src/services/taskConsolidator.js:163-200 | the module group's deliverable object, normalised, is the specified one |
| TaskConsolidator.ConsolidateClarityPhase | odoo-planner-app/src/services/taskConsolidator.js:79-128 | the group loop builds the specified Clarity deliverables |
| TaskConsolidator.ConsolidateAdoptionPhase | odoo-planner-app/src/services/taskConsolidator.js:351-402 | the group loop builds the specified Adoption deliverables, normalising only those with subtasks |
| TaskConsolidator.ConsolidateModule | odoo-planner-app/src/services/taskConsolidator.js:155-204 | one module's group loop builds its deliverables and leaves the counter after their ids |
| TaskConsolidator.ConsolidateModules | odoo-planner-app/src/services/taskConsolidator.js:148-204 | the module loop builds every module's deliverables and advances the counter by their span |
| TaskConsolidator.AddSpecialDeliverables | odoo-planner-app/src/services/taskConsolidator.js:207-266 | security always, warehouse when answered `Yes`, integrations when answered `Yes` with a list, at consecutive ids |
| TaskConsolidator.ConsolidateCustomModules | odoo-planner-app/src/services/taskConsolidator.js:269-297 | the slot loop builds a deliverable for each named slot |
| TaskConsolidator.ConsolidateImplementationPhase | odoo-planner-app/src/services/taskConsolidator.js:133-300 | Implementation is the modules, then the fixed deliverables, then the custom modules |
| TaskConsolidator.ConsolidatePhases | odoo-planner-app/src/services/taskConsolidator.js:17-66 | the enabled phases in order, each on its own phase's tasks, with the counter threaded from 1 |
| TaskConsolidator.ConsolidateTasks | odoo-planner-app/src/services/taskConsolidator.js:17-74 | the deliverables are the specified ones, worded in Spanish exactly when the language is "Spanish". The flat list keeps each subtask's own milestone. The stats count deliverables, subtasks and rows (deliverables plus subtasks) |
| ConsolidatorIds.ClarityIds | odoo-planner-app/src/services/taskConsolidator.js:79-128 | Clarity's deliverables and subtasks take consecutive ids from where the counter stood |
| ConsolidatorIds.AdoptionIds | odoo-planner-app/src/services/taskConsolidator.js:351-402 | Adoption's deliverables and subtasks take consecutive ids |
| ConsolidatorIds.ModuleIds | odoo-planner-app/src/services/taskConsolidator.js:155-204 | one module's deliverables and subtasks take consecutive ids |
| ConsolidatorIds.ModulesIds | odoo-planner-app/src/services/taskConsolidator.js:148-204 | all modules' deliverables and subtasks take consecutive ids |
| ConsolidatorIds.SpecialIds | odoo-planner-app/src/services/taskConsolidator.js:207-266 | security, warehouse with its subtasks, and integrations take consecutive ids |
| ConsolidatorIds.CustomIds | odoo-planner-app/src/services/taskConsolidator.js:269-297 | the custom deliverables and their subtasks take consecutive ids |
| ConsolidatorIds.ImplementationIds | odoo-planner-app/src/services/taskConsolidator.js:133-300 | Implementation's deliverables and subtasks take consecutive ids |
| ConsolidatorIds.ClarityPartIds | odoo-planner-app/src/services/taskConsolidator.js:26-36 | the Clarity part, on or off, takes consecutive ids from where the counter stood, and advances the counter by its span |
| ConsolidatorIds.ImplementationPartIds | odoo-planner-app/src/services/taskConsolidator.js:38-48 | the Implementation part, on or off, takes consecutive ids from where the counter stood, and advances the counter by its span |
| ConsolidatorIds.AdoptionPartIds | odoo-planner-app/src/services/taskConsolidator.js:50-60 | the Adoption part, on or off, takes consecutive ids from where the counter stood |
| ConsolidatorIds.ConsolidatedIds | odoo-planner-app/src/services/taskConsolidator.js:17-66 | the consolidated plan's deliverables and subtasks take the ids 1, 2, 3, … in order |
| ConsolidatorIds.ConsolidatedRowIds | odoo-planner-app/src/services/taskConsolidator.js:456-500 | row `k` of the consolidated flat list has id `k + 1`, so the ids run from 1 to the task count and no two rows share one |
| ProjectPlanState.Toggled | odoo-planner-app/src/hooks/useProjectPlan.js:53-63 | toggling a deliverable flips its membership in the expanded set and leaves the others |
| ProjectPlanState.ToggleTwice | odoo-planner-app/src/hooks/useProjectPlan.js:53-63 | toggling twice restores the expanded set |
| ProjectPlanState.DeleteRestore | odoo-planner-app/src/hooks/useProjectPlan.js:82-95 | restoring a task that was not deleted before undoes deleting it; deleting twice is deleting once |
| ProjectPlanState.DeliverableIdSet | odoo-planner-app/src/hooks/useProjectPlan.js:68-70 | `expandAll` expands exactly the deliverables' ids |
| ProjectPlanState.EditRowsAt | odoo-planner-app/src/hooks/useProjectPlan.js:100-116 | editing a row's hours or assignee changes exactly the rows with that id |
| ProjectPlanState.EditDeliverablesAt | odoo-planner-app/src/hooks/useProjectPlan.js:100-137 | an edit of a deliverable's id changes that deliverable and keeps its subtasks; any other deliverable has its matching subtasks edited |
| ProjectPlanState.EditSubtasksAt | odoo-planner-app/src/hooks/useProjectPlan.js:100-137 | an edit changes exactly the subtasks with that id |
| ProjectPlanState.EditRowsIds | odoo-planner-app/src/hooks/useProjectPlan.js:100-116 | edits keep the row ids |
| ProjectPlanState.EditDeliverablesIds | odoo-planner-app/src/hooks/useProjectPlan.js:100-137 | edits keep the plan's ids |
| ProjectPlanState.EditRowsAbsent | odoo-planner-app/src/hooks/useProjectPlan.js:100-116 | editing an id that no row has changes nothing |
| ProjectPlanState.ActiveRowsMembers | odoo-planner-app/src/hooks/useProjectPlan.js:142-144 | a row is active exactly when it is a row whose id is not deleted |
| ProjectPlanState.ActiveRowsAppend | odoo-planner-app/src/hooks/useProjectPlan.js:142-144 | the active rows of two lists are those of each |
| ProjectPlanState.ActiveDeliverablesMembers | odoo-planner-app/src/hooks/useProjectPlan.js:149-156 | a deliverable is active exactly when it is a kept deliverable with its deleted subtasks removed |
| ProjectPlanState.ActiveSubtasksMembers | odoo-planner-app/src/hooks/useProjectPlan.js:152-155 | a subtask stays exactly when its id is not deleted |
| ProjectPlanState.ActiveRowsNone | odoo-planner-app/src/hooks/useProjectPlan.js:142-144 | with nothing deleted every row is active |
| ProjectPlanState.ActiveDeliverablesNone | odoo-planner-app/src/hooks/useProjectPlan.js:149-156 | with nothing deleted every deliverable stays as it is |
| ProjectPlanState.DeletedParentKeepsSubtaskRows | odoo-planner-app/src/hooks/useProjectPlan.js:142-156 | deleting a deliverable drops it from the active deliverables but keeps its subtask rows in the active flat list |
| ProjectPlanState.GeneratedStats | odoo-planner-app/src/hooks/useProjectPlan.js:168-178 | right after generation the stats count every deliverable, subtask, row and hour, and nothing deleted |
| ProjectPlanState.DeleteThenRestore | odoo-planner-app/src/hooks/useProjectPlan.js:82-95 | deleting then restoring a task that was not deleted leaves the deletions and the plan as they were |
| ProjectPlanState.ProjectPlanHook.constructor | odoo-planner-app/src/hooks/useProjectPlan.js:11-17 | the state starts empty: no plan, no deliverables, rows or milestones, nothing deleted or expanded |
| ProjectPlanState.ProjectPlanHook.GeneratePlan | odoo-planner-app/src/hooks/useProjectPlan.js:22-48 | the plan is generated from the responses in their language. Its project info carries the name, client, manager, dates, language and the allocated hours. Deliverables, rows and milestones are stored, and the deleted and expanded sets are cleared. The stored stats agree with the active views |
| ProjectPlanState.ProjectPlanHook.ToggleDeliverableExpansion | odoo-planner-app/src/hooks/useProjectPlan.js:53-63 | only the expanded set changes, toggled at the id |
| ProjectPlanState.ProjectPlanHook.ExpandAll | odoo-planner-app/src/hooks/useProjectPlan.js:68-70 | the expanded set becomes the deliverables' ids; nothing else changes |
| ProjectPlanState.ProjectPlanHook.CollapseAll | odoo-planner-app/src/hooks/useProjectPlan.js:75-77 | the expanded set becomes empty; nothing else changes |
| ProjectPlanState.ProjectPlanHook.DeleteTask | odoo-planner-app/src/hooks/useProjectPlan.js:82-84 | the id joins the deleted set; nothing else changes |
| ProjectPlanState.ProjectPlanHook.RestoreTask | odoo-planner-app/src/hooks/useProjectPlan.js:89-95 | the id leaves the deleted set; nothing else changes |
| ProjectPlanState.ProjectPlanHook.UpdateTaskHours | odoo-planner-app/src/hooks/useProjectPlan.js:100-116 | the hours change in the rows and in the deliverables or subtasks with that id; nothing else changes |
| ProjectPlanState.ProjectPlanHook.UpdateTaskAssignee | odoo-planner-app/src/hooks/useProjectPlan.js:121-137 | the assignee changes in the rows and in the deliverables or subtasks with that id; nothing else changes |
| ProjectPlanState.ProjectPlanHook.ResetPlan | odoo-planner-app/src/hooks/useProjectPlan.js:183-190 | the state is empty again |
| ProjectPlanState.ProjectPlanHook.ActiveFlatTasks | odoo-planner-app/src/hooks/useProjectPlan.js:142-144 | a row is active exactly when it is a row whose id is not deleted |
| ProjectPlanState.ProjectPlanHook.ActiveDeliverables | odoo-planner-app/src/hooks/useProjectPlan.js:149-156 | the active deliverables are exactly the kept deliverables, each without its deleted subtasks |
| ProjectPlanState.ProjectPlanHook.Stats | odoo-planner-app/src/hooks/useProjectPlan.js:161-178 | there are stats exactly when there is a plan. They count the deleted ids, the active deliverables, their subtasks and the active rows, and total the active deliverables' hours |
| ModuleHoursMap.LookupKeys | odoo-planner-app/src/hooks/useQuestionnaire.js:179-187 | a module has hours exactly when it is one of the keys |
| ModuleHoursMap.PutLookup | odoo-planner-app/src/hooks/useQuestionnaire.js:179-187 | after setting a module's hours it holds them and every other module keeps its own |
| ModuleHoursMap.PutKeys | odoo-planner-app/src/hooks/useQuestionnaire.js:179-187 | setting hours keeps the key order and appends a new key |
| ModuleHoursMap.RemoveLookup | odoo-planner-app/src/hooks/useQuestionnaire.js:159-174 | after removing a module it is missing and every other module keeps its hours |
| ModuleHoursMap.RemoveAbsent | odoo-planner-app/src/hooks/useQuestionnaire.js:159-174 | removing a missing module changes nothing |
| ModuleHoursMap.PutDistinct | odoo-planner-app/src/hooks/useQuestionnaire.js:179-187 | setting hours keeps the keys distinct |
| ModuleHoursMap.RemoveDistinct | odoo-planner-app/src/hooks/useQuestionnaire.js:159-174 | removing a module keeps the keys distinct |
| ModuleHoursMap.ToggleFacts | odoo-planner-app/src/hooks/useQuestionnaire.js:159-174 | toggling keeps the keys distinct. It removes a module with non-zero hours and otherwise sets it to 20. Every other module keeps its hours |
| ModuleHoursMap.ToggleTwiceAbsent | odoo-planner-app/src/hooks/useQuestionnaire.js:159-174 | toggling a missing module twice gives the map back |
| ModuleHoursMap.SelectedMembers | odoo-planner-app/src/hooks/useQuestionnaire.js:150-154 | a module is selected exactly when its hours are positive |
| ModuleHoursMap.SelectedArePositive | odoo-planner-app/src/hooks/useQuestionnaire.js:150-154 | the selected modules are, in order, the modules the plan generator makes work packages for |
| QuestionConditions.StrictNeNegates | odoo-planner-app/src/hooks/useQuestionnaire.js:122-123 | the generic `!==` is exactly the negation of the generic `===` |
| QuestionConditions.OrderComparisons | odoo-planner-app/src/hooks/useQuestionnaire.js:124-127 | when both sides are numbers, `>` negates `<=` and `<` negates `>=`; when either is not a number all four are false |
| QuestionConditions.BooleanEqualsTrue | odoo-planner-app/src/hooks/useQuestionnaire.js:122-122 | a boolean field `=== true` holds exactly when it is true |
| QuestionConditions.TextEquals | odoo-planner-app/src/hooks/useQuestionnaire.js:122-122 | a text field `=== v` holds exactly when it is `v` |
| QuestionConditions.Unquoted | odoo-planner-app/src/hooks/useQuestionnaire.js:118-118 | the compared value has no quote left |
| QuestionConditions.OpIndex | odoo-planner-app/src/hooks/useQuestionnaire.js:115-115 | every operator is among those the expression tries |
| QuestionConditions.EarlierOpsFail | odoo-planner-app/src/hooks/useQuestionnaire.js:115-115 | the operators tried before the written one do not match its text |
| QuestionConditions.MatchWritten | odoo-planner-app/src/hooks/useQuestionnaire.js:115-117 | `field op value` is read back as that field, operator and value |
| QuestionConditions.ParseWritten | odoo-planner-app/src/hooks/useQuestionnaire.js:115-117 | writing a condition and reading it back gives it again |
| QuestionConditions.UnreadableShows | odoo-planner-app/src/hooks/useQuestionnaire.js:133-137 | a condition the expression cannot read shows the question |
| QuestionConditions.WrittenEvaluates | odoo-planner-app/src/hooks/useQuestionnaire.js:113-129 | a generic condition shows the question exactly when its comparison holds on the unquoted value |
| QuestionConditions.InventoryCondition | odoo-planner-app/src/hooks/useQuestionnaire.js:106-112 | the inventory condition shows the question exactly when some module with positive hours has `inventory` in its name, in any case |
| QuestionConditions.KnownConditionsAgree | odoo-planner-app/src/hooks/useQuestionnaire.js:90-105 | each condition handled by name gives what the generic comparison would give for the same text |
| QuestionnaireState.WithNewCustom | odoo-planner-app/src/hooks/useQuestionnaire.js:192-200 | adding a custom module appends an empty one of 20 hours and keeps the others |
| QuestionnaireState.WithoutCustom | odoo-planner-app/src/hooks/useQuestionnaire.js:205-210 | removing index `i` drops that module and shifts the later ones; an index out of range changes nothing |
| QuestionnaireState.WithEditedCustom | odoo-planner-app/src/hooks/useQuestionnaire.js:215-222 | editing index `i` changes that module only |
| QuestionnaireState.FindTemplate | odoo-planner-app/src/hooks/useQuestionnaire.js:227-233 | the template found has the id and is one of the templates; none is found only when no template has it |
| QuestionnaireState.ModuleHoursOfFacts | odoo-planner-app/src/hooks/useQuestionnaire.js:240-250 | a template gives each of its modules the same hours and no others, with distinct keys |
| QuestionnaireState.TemplateShareBounds | odoo-planner-app/src/hooks/useQuestionnaire.js:240-245 | each module's share is the template's Implementation hours (120 when missing) divided by the module count, rounded |
| QuestionnaireState.TotalMatchesAllocated | odoo-planner-app/src/hooks/useQuestionnaire.js:355-367 | the wizard's total is the plan's allocated hours, except that the plan also counts the module hours when Implementation is off |
| QuestionnaireState.InitialTotals | odoo-planner-app/src/hooks/useQuestionnaire.js:14-50 | the initial responses total 92 hours and cannot generate a plan |
| QuestionnaireState.CustomStartTotals | odoo-planner-app/src/hooks/useQuestionnaire.js:227-240 | the custom template clears the hours to 0 and cannot generate a plan |
| QuestionnaireState.CanGenerateNeedsAPhase | odoo-planner-app/src/hooks/useQuestionnaire.js:372-379 | with every phase off a plan cannot be generated and the total is 0 |
| QuestionnaireState.VisibleSectionsMembers | odoo-planner-app/src/hooks/useQuestionnaire.js:61-81 | a section is visible exactly when it is a section whose condition holds |
| QuestionnaireState.AllPhasesOnShowsAll | odoo-planner-app/src/hooks/useQuestionnaire.js:61-81 | with every phase on every section is visible, in order |
| QuestionnaireState.NextSection | odoo-planner-app/src/hooks/useQuestionnaire.js:300-304 | next moves forward one section unless on the last |
| QuestionnaireState.PreviousSection | odoo-planner-app/src/hooks/useQuestionnaire.js:306-310 | previous moves back one section unless on the first |
| QuestionnaireState.SectionAt | odoo-planner-app/src/hooks/useQuestionnaire.js:312-316 | going to an index in range selects it; any other index changes nothing |
| QuestionnaireState.NavigationStaysInRange | odoo-planner-app/src/hooks/useQuestionnaire.js:300-316 | navigation from a section in range stays in range, and never goes below 0 |
| QuestionnaireState.NextThenPrevious | odoo-planner-app/src/hooks/useQuestionnaire.js:300-310 | next then previous comes back, away from the last section |
| QuestionnaireState.SelectedAll | odoo-planner-app/src/hooks/useQuestionnaire.js:150-154 | with distinct keys, the selected modules are exactly those with positive hours |
| QuestionnaireState.Questionnaire.constructor | odoo-planner-app/src/hooks/useQuestionnaire.js:14-56 | the wizard starts at section 0 with the initial responses and no template |
| QuestionnaireState.Questionnaire.UpdateResponse | odoo-planner-app/src/hooks/useQuestionnaire.js:143-145 | only the edited response field changes; the keys stay distinct |
| QuestionnaireState.Questionnaire.ToggleModule | odoo-planner-app/src/hooks/useQuestionnaire.js:159-174 | the module hours are toggled at the module; nothing else changes |
| QuestionnaireState.Questionnaire.UpdateModuleHours | odoo-planner-app/src/hooks/useQuestionnaire.js:179-187 | the module's hours are set; nothing else changes |
| QuestionnaireState.Questionnaire.AddCustomModule | odoo-planner-app/src/hooks/useQuestionnaire.js:192-200 | an empty custom module is appended; nothing else changes |
| QuestionnaireState.Questionnaire.RemoveCustomModule | odoo-planner-app/src/hooks/useQuestionnaire.js:205-210 | the custom module at the index is removed; nothing else changes |
| QuestionnaireState.Questionnaire.UpdateCustomModule | odoo-planner-app/src/hooks/useQuestionnaire.js:215-222 | the custom module at the index is edited; nothing else changes |
| QuestionnaireState.Questionnaire.ApplyTemplate | odoo-planner-app/src/hooks/useQuestionnaire.js:227-295 | `custom` clears the plan answers. A known template sets its phases and its modules at an even share of its hours. An unknown id only clears the selected template. The section does not change |
| QuestionnaireState.Questionnaire.GoToNextSection | odoo-planner-app/src/hooks/useQuestionnaire.js:300-304 | the section moves forward among the visible ones; nothing else changes |
| QuestionnaireState.Questionnaire.GoToPreviousSection | odoo-planner-app/src/hooks/useQuestionnaire.js:306-310 | the section moves back; nothing else changes |
| QuestionnaireState.Questionnaire.GoToSection | odoo-planner-app/src/hooks/useQuestionnaire.js:312-316 | the section becomes the index when it is among the visible ones; nothing else changes |
| QuestionnaireState.Questionnaire.Reset | odoo-planner-app/src/hooks/useQuestionnaire.js:321-325 | the wizard is back to section 0, the initial responses and no template |
| QuestionnaireState.Questionnaire.VisibleSections | odoo-planner-app/src/hooks/useQuestionnaire.js:61-81 | a section is visible exactly when it is a section whose condition holds |
| QuestionnaireState.Questionnaire.CurrentSectionData | odoo-planner-app/src/hooks/useQuestionnaire.js:395-395 | the current section is a visible section, and there is none exactly when the index is out of range |
| QuestionnaireState.Questionnaire.SelectedModules | odoo-planner-app/src/hooks/useQuestionnaire.js:150-154 | a module is selected exactly when its hours are positive |
| QuestionnaireState.Questionnaire.ImplementationHours | odoo-planner-app/src/hooks/useQuestionnaire.js:330-338 | the wizard's Implementation hours are the generator's Implementation budget |
| QuestionnaireState.Questionnaire.AdoptionHours | odoo-planner-app/src/hooks/useQuestionnaire.js:343-350 | adoption hours are 0 with the phase off and otherwise the generator's Adoption budget |
| QuestionnaireState.Questionnaire.TotalHours | odoo-planner-app/src/hooks/useQuestionnaire.js:355-367 | the total is the plan's allocated hours, except that the plan also counts module hours when Implementation is off |
| CsvExport.ProjectRows | odoo-planner-app/src/services/csvExporter.js:15-32 | one project row with the name, customer, dates and the deliverables' total hours |
| CsvExport.ProjectTimeAdds | odoo-planner-app/src/services/csvExporter.js:17-17 | the project's allocated time adds up over the deliverables |
| CsvExport.ExportDeadline | odoo-planner-app/src/services/csvExporter.js:43-44 | the export always has a deadline, 12 weeks after the start when none is given |
| CsvExport.ExportMilestonesCsv | odoo-planner-app/src/services/csvExporter.js:39-116 | the method builds the milestone rows of the specified milestones |
| CsvExport.PushClarityMilestones | odoo-planner-app/src/services/csvExporter.js:48-69 | Clarity adds its three milestones at 2, 3 and 4 weeks after the start |
| CsvExport.PushModuleMilestones | odoo-planner-app/src/services/csvExporter.js:72-85 | the module loop adds one milestone per selected module at the deadline |
| CsvExport.PushCustomMilestones | odoo-planner-app/src/services/csvExporter.js:86-97 | the custom loop adds one milestone per named custom module with hours at the deadline |
| CsvExport.MilestoneRowsAt | odoo-planner-app/src/services/csvExporter.js:109-113 | row `k` carries the project, milestone `k`'s name and its deadline |
| CsvExport.MilestoneCount | odoo-planner-app/src/services/csvExporter.js:39-106 | there are 3 Clarity milestones, one per selected or eligible custom module, and 1 for Adoption, for the phases that are on |
| CsvExport.ClarityDeadlines | odoo-planner-app/src/services/csvExporter.js:48-69 | Clarity milestone `k` is due `2 + k` weeks after the start |
| CsvExport.LaterDeadlines | odoo-planner-app/src/services/csvExporter.js:72-106 | every later milestone is due at the deadline |
| CsvExport.ModuleNamesAgree | odoo-planner-app/src/services/csvExporter.js:72-85 | the module milestone names match the plan generator's module milestones |
| CsvExport.CustomNamesAgree | odoo-planner-app/src/services/csvExporter.js:86-97 | the custom milestone names match the plan generator's custom milestones |
| CsvExport.ImplementationNamesAgree | odoo-planner-app/src/services/csvExporter.js:72-98 | Implementation's milestone names match the plan's |
| CsvExport.SpanishMilestonesMatchPlan | odoo-planner-app/src/services/csvExporter.js:39-106 | in Spanish the exported milestone names are the plan's milestone names, in order |
| CsvExport.EnglishNamesDiffer | odoo-planner-app/src/services/csvExporter.js:57-60 | in English the second milestone reads `Findings & TO-BE` in the CSV but `Findings and TO-BE` in the plan |
| CsvExport.PriorityLabel | odoo-planner-app/src/services/csvExporter.js:151-152 | `High priority` exactly for high, `Medium priority` exactly for medium, `Low priority` otherwise |
| CsvExport.OdooTag | odoo-planner-app/src/services/csvExporter.js:123-130 | `Process Mapping` exactly for Clarity, `Soporte` exactly for Adoption, `Odoo Implementation` otherwise |
| CsvExport.TaskRowsAt | odoo-planner-app/src/services/csvExporter.js:138-160 | task row `k` is the row of flat task `k`, with its parent task and hours |
| CsvExport.TaskRowsAppend | odoo-planner-app/src/services/csvExporter.js:138-160 | the task rows of two lists are those of each |
| CsvExport.FlatDeliverables | odoo-planner-app/src/services/csvExporter.js:181-181 | the deliverable rows of a flat plan are exactly its deliverables' own rows, in order |
| CsvExport.DeliverableRowsAreTaskRows | odoo-planner-app/src/services/csvExporter.js:179-197 | when deliverable rows have no parent, the deliverables file is the tasks file of the deliverable rows |
| CsvExport.DeliverableFileOfPlan | odoo-planner-app/src/services/csvExporter.js:179-197 | the deliverables file of a plan has one row per deliverable with its title and hours and no parent |
| CsvExport.OnlyDeliverablesHas | odoo-planner-app/src/services/csvExporter.js:181-181 | every deliverable row is kept |
| CsvExport.OnlyDeliverablesExactly | odoo-planner-app/src/services/csvExporter.js:181-181 | for any task list, such as the filtered active rows, a row is kept exactly when it is a row of the list with task type deliverable |
| CsvExport.SqueezedNoDouble | odoo-planner-app/src/services/csvExporter.js:226-226 | collapsing runs of `_` leaves no `__` |
| CsvExport.SqueezedFixed | odoo-planner-app/src/services/csvExporter.js:226-226 | a name without `__` is left as it is |
| CsvExport.UnderscoredFacts | odoo-planner-app/src/services/csvExporter.js:226-226 | replacing every non-alphanumeric character by `_` leaves only letters, digits and `_`, keeps the letters and digits, and changes nothing already safe |
| CsvExport.SanitizedName | odoo-planner-app/src/services/csvExporter.js:224-227 | a sanitised name is never empty, holds only letters, digits and `_` without `__`, and keeps a non-empty name's letters and digits |
| CsvExport.SanitizeFixedPoints | odoo-planner-app/src/services/csvExporter.js:224-227 | a name is left as it is exactly when it is non-empty, safe and has no `__`, and sanitising twice is sanitising once |
| Dates.WorkdaysWeek | odoo-planner-app/src/utils/dateHelpers.js:69-85 | any seven consecutive days hold exactly five business days |
| PlanFacts.ExtrasIds | odoo-planner-app/src/services/planGenerator.js:228-302 | integration and warehouse ids increase inside the end of Implementation's id range |
| PlanFacts.ExtrasPartHours | odoo-planner-app/src/services/planGenerator.js:228-302 | integration and warehouse add their fixed hours when answered `Yes` |
| PlanFacts.TrainingPartHours | odoo-planner-app/src/services/planGenerator.js:768-821 | training adds its hours when they are positive, nothing otherwise |
| PlanFacts.GoLivePartHours | odoo-planner-app/src/services/planGenerator.js:824-869 | go-live adds its hours when they are positive, nothing otherwise |
| PlanBlocks.TrainingPartIds | odoo-planner-app/src/services/planGenerator.js:768-821 | training, when its hours are positive, is one package with four consecutive ids, and nothing otherwise |
| PlanBlocks.GoLivePartIds | odoo-planner-app/src/services/planGenerator.js:824-869 | go-live, when its hours are positive, is one package with three consecutive ids, and nothing otherwise |
| PlanBlocks.SupportPartIds | odoo-planner-app/src/services/planGenerator.js:872-905 | support, when months and hours per month are positive, takes one id for the package and one per month, all consecutive |
| TaskConsolidator.ModuleIdSpan | odoo-planner-app/src/services/taskConsolidator.js:155-204 | one module advances the counter by one per matched group plus one per matched task |
| CsvExport.ImplementationDeadlines | odoo-planner-app/src/services/csvExporter.js:72-98 | every Implementation milestone is due at the export deadline |
| CsvExport.SqueezedAlnums | odoo-planner-app/src/services/csvExporter.js:226-226 | collapsing runs of `_` keeps the letters and digits |
| CsvExport.SqueezedSafe | odoo-planner-app/src/services/csvExporter.js:226-226 | collapsing runs of `_` keeps a safe name safe |
| QuestionnaireState.VisibleSectionsAll | odoo-planner-app/src/hooks/useQuestionnaire.js:61-81 | the visible sections are exactly the sections whose condition holds |

## Left out

- Floating point. Hours are whole numbers. `parseFloat`, `parseInt` and `Number()` on non-integer text are not modelled, and `NaN` appears only as "not a number" in the visibility conditions.
- ConsolidatorParts.TaskShare without the fallback to 2, which is the consolidator's Clarity share: when every matched task has 0 estimated hours, the source divides by 0 and gets `NaN`, and the model gives 0 hours. The Adoption share has the fallback, so `Math.round(NaN || 2)` gives 2 there, as the model does.
- JavaScript property order beyond what the model keeps: `module_hours` is an insertion-ordered list, and other objects are records.
- `toLowerCase` beyond ASCII: only `A` to `Z` are lowered, and the case of other letters is not folded.
- Inherited object properties in the visibility conditions: a condition on a field named like `constructor` or `toString` reads `undefined` in the model, while JavaScript reads the inherited function.
- The flat rows' `tags` and `stage` fields, and the consolidator's `category` and `odoo_feature` fields. `tags` is always the phase with "Deliverable" or "Subtask", `stage` is always `backlog`, and the other two are copied from the task library. Nothing the model states reads them, and the CSV rows compute their own tags.
- The clock and the locale. `today` is a parameter. `getToday` and `formatDate` are not modelled, and neither is the text form of dates in the CSV files: a CSV date cell holds a day number.
- Time zones and daylight-saving time. `Date` arithmetic is modelled on whole civil days, including `setMonth`'s overflow into the next month.
- `downloadCSV` (Papa Parse, `Blob`, the download link) and the `setTimeout` delays in `exportAll`: they are browser I/O. `exportAll` itself only calls the row builders and `downloadCSV`.
- The React components, `aiCustomization.js` and the rest of the application: they are outside the planning core.
- The JSON data files: the questionnaire structure, the project templates, the task library and the deliverable groups. They are parameters of the model, and only their shape is modelled.
- `isGenerating`: the flag is set while `generatePlan` runs, and its asynchronous timing is not modelled.
- QuestionnaireState.Questionnaire.UpdateResponse: a field only takes a value of its own type, and a new `module_hours` has distinct keys. JavaScript would store any value under any key.
- HourNormalization.NormalizeSubtaskHours: returns the normalised deliverable instead of updating the object in place. Nothing else holds a reference to the deliverable at that point.
- QuestionnaireState.Questionnaire.CanGenerate and QuestionnaireState.Questionnaire.IsQuestionVisible: they carry no `ensures` of their own. What they compute is stated by `CanGenerateNeedsAPhase`, `InitialTotals`, `WrittenEvaluates`, `KnownConditionsAgree`, `InventoryCondition` and `UnreadableShows`.

## Observations

Some properties the source might be expected to have do not hold. Each one is stated and proved as a lemma about the code as written:

- **Subtask hours do not always add up to their package.**
  - Rounding each share on its own loses or gains an hour: a 2-hour Clarity budget becomes 3 hours, and a 1-hour budget becomes 0 (`ClarityPhaseRoundingDrift`).
  - An 11-hour module's subtasks add up to 12 (`ModulePackageRoundingDrift`).
  - A 10-hour custom module's subtasks add up to 11 (`CustomSplitCanOvershoot`).
  - In the consolidator, three one-hour tasks sharing one hour all round to 0. The normalisation skips an all-zero list, so they stay at 0 (`GroupSharesCanVanish`).
  - `normalizeSubtaskHours` can leave the last subtask with negative hours (`NormalizeNegativeRemainder`).
- **Budgets and allocated hours disagree.**
  - The plan's allocated hours count module hours even when Implementation is off (`TotalMatchesAllocated`).
  - The Adoption phase falls back to 24 + 8 + 10 × 2 = 52 hours when its answers are empty, while the budget counts 0 (`AdoptionDefaultsExceedBudget`).
- **Milestone orders collide.** Implementation's milestone orders start at 11, and Adoption's milestone is fixed at 100. With 90 module and custom packages, two milestones share order 100 (`MilestoneOrderCollision`).
- **The CSV files and the plan disagree.**
  - In English, the exported milestone names use "&" ("Findings & TO-BE"), while the plan says "and" (`EnglishNamesDiffer`). The Spanish names agree (`SpanishMilestonesMatchPlan`).
  - The exported Clarity milestones are placed 2, 3 and 4 weeks after the start, whatever the deadline (`ClarityDeadlines`).
- **The plan view keeps deleted subtasks.** Deleting a deliverable hides it from the active deliverables, but its subtask rows stay in the active flat task list (`DeletedParentKeepsSubtaskRows`).
- **The questionnaire has loose ends.**
  - Applying an unknown template clears the selected template but keeps the responses (`Questionnaire.ApplyTemplate`).
  - `currentSection` is not clamped when the visible sections shrink, so `currentSectionData` can be missing (`Questionnaire.CurrentSectionData`).
- **File names.** A character outside the ASCII range becomes `_`. A character outside the Basic Multilingual Plane is two UTF-16 units and so becomes `__`, which is then collapsed to a single `_`.
- **Dollar signs in module names are expanded.** The consolidator fills its title and description templates with `replace`, which reads `$&`, `$$`, `` $` `` and `$'` in the replacement. A custom module named `A$&` gets the title text `A{name}` (`ReplaceDollarName`).
