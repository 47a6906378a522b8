# Random rent generator for a car-rental CRM

The program fills a Dynamics CRM organisation with 40000 sample car rentals. For each
sample it creates one `new_rent` entity named `Sample  -` plus the right-aligned sample number.
It then repeats attempts until one succeeds. An attempt:

- draws a status reason, the matching state, a duration and a pickup day inside 2019-01-01 .. 2020-12-31;
- sets the actual pickup and return days that the status calls for;
- draws a car class and an active car of that class;
- asks the store whether that car is already booked over the chosen days.

If the car is booked, the attempt is abandoned and the next one draws everything again.
An attempt that passes fills in:

- the car, pickup and return locations, price (price per day × days), customer and paid flag;
- pickup and return transfer reports (`new_cartransferreport`), created in the store, with a
  damage draw each.

It then stores the rent. The customers and the active cars of a class are read with a paging
loop (`GetAllByQuery`). The car classes come from a single `RetrieveMultiple`, and the transfer
locations come from option-set metadata.

The model:

- Every `rand.Next` result is a parameter constrained to its range (`rand.Next(lo, hi)` gives
  `lo .. hi - 1`). The per-attempt draws are bundled in `Generator.Draws`.
- Dates are whole day numbers, with 2019-01-01 as day 0 and 2020-12-31 as day 730.
- The CRM is `Crm.Service`, a class whose `rents` and `reports` sequences grow by `CreateRent`
  and `CreateReport`. Entities are maps from attribute to value. The rent of a sample is one
  such map, updated in place attempt after attempt, and is never cleared.
- Distributions are stated as counts over the draw domain, for example 15 of the 19 status
  draws give "Returned".

Modules:

- `Sampler`: status, state, paid and damage draws, index picks and `GetRandomDay`.
- `Paging`: `GetAllByQuery`.
- `Overlap`: the availability query of `CheckCarRental`.
- `Reports`: `CreateReport`.
- `Naming`: the sample name.
- `Generator`: the two loops of `Main`.

Where the comments in the source and its code differ, the model follows the code:

- Durations are 1 to 29 days (`rand.Next(1, 30)`), not 1 to 30.
- The paid draw lies in 1 .. 9999.
- Status weights are 1, 1, 1, 15 and 1 out of 19. "Canceled" is drawn in 1 of 19 cases, not 10%,
  and "Returned" in 15 of 19, not 75%.
- The pickup report description has two spaces before the date ("Pickup " + " " + date).
- The availability query only looks at rents whose status reason is "Canceled", as the code is
  written. The model keeps that filter.

## Model

| member | source | states |
|---|---|---|
| Sampler.StatusReason | Program.cs:291-317 | draw 1 gives Created, 2 Confirmed, 3 Renting, 4..18 Returned, anything else (19 in range) Canceled, each as an if-and-only-if |
| Sampler.StatusDistribution | Program.cs:291-317 | of the 19 status draws exactly 1, 1, 1, 15 and 1 give Created, Confirmed, Renting, Returned, Canceled |
| Sampler.StatusState | Program.cs:279-289 | the state code is 0 or 1, and 1 (inactive) exactly for Returned and Canceled |
| Sampler.InactiveDistribution | Program.cs:279-317 | 16 of the 19 status draws produce an inactive rent |
| Sampler.PaidStatus | Program.cs:251-277 | only Confirmed, Renting and Returned rents can be paid; for a draw of at least 1, paid exactly when the draw is at most the status's threshold 9000, 9990, 9998 (0 otherwise) |
| Sampler.PaidDistribution | Program.cs:251-277 | of the 9999 paid draws exactly 9000, 9990, 9998 mark Confirmed, Renting, Returned paid, none the others |
| Sampler.Damaged | Program.cs:156-165 | damage is recorded exactly when the draw is 1: never for another draw, always for 1 |
| Sampler.DamageDistribution | Program.cs:156-165 | exactly 1 of the 19 damage draws records damage |
| Sampler.Pick | Program.cs:171-174 | a list pick with an index drawn in 0..Count-1 returns an element of the list |
| Sampler.RandomDay | Program.cs:241-244 | `GetRandomDay(start, span)` lies between start and start + span |
| Paging.StartPaging | Program.cs:30-38 | a query without paging gets count 5000, page 1 and an empty cookie; existing paging is kept |
| Paging.LastPage | Program.cs:40-52 | the loop stops at the first page that says no more records follow |
| Paging.FirstLastPage | Program.cs:40-52 | when some page says no more records follow, there is a first such page, and every page before it says more records follow |
| Paging.GetAllByQuery | Program.cs:25-55 | one call per page up to the last; the paging sent is `Sent` of those calls; the result is the entities of those pages in order; the query keeps the paging of the last call |
| Paging.FlattenMembers | Program.cs:40-52 | an entity is fetched from the first k pages exactly when it is on one of them |
| Paging.FlattenLength | Program.cs:40-52 | the number of entities fetched from the first k pages is the sum of their sizes |
| Paging.SentAt | Program.cs:30-52 | the i-th call sends the start page number plus i and the cookie of the page before (the start cookie for the first call) |
| Overlap.BookingOf | Program.cs:207-226 | a rent yields a booking only when it has a status, car, pickup and handover, and the booking carries those values |
| Overlap.Matches | Program.cs:208-225 | a rent the query returns is canceled, of the same car and not strictly inside the candidate range; when the candidate range is well formed it shares a day with it |
| Overlap.CheckCarRental | Program.cs:203-233 | a store without rents lets every car through (the full characterisation is `CheckCarRentalIff`) |
| Overlap.CasesCharacterised | Program.cs:209-225 | the three cases of the query hold exactly when the ranges intersect and the stored range is not strictly inside the candidate |
| Overlap.MatchIntersects | Program.cs:207-226 | a rent the query returns always shares a day with the candidate range |
| Overlap.StrictlyInsideMissed | Program.cs:209-225 | a stored range strictly inside the candidate is never returned |
| Overlap.CheckCarRentalIff | Program.cs:203-233 | the check answers false exactly when a canceled rent of the same car intersects the candidate without lying strictly inside it |
| Overlap.WrittenCheckAdmitsOverlap | Program.cs:203-233 | a canceled rent of car 7 over days 5..7 lets a candidate over days 1..10 pass, and storing it creates an overlap |
| Overlap.AvailablePreservesNoOverlap | Program.cs:203-233 | with the corrected check, storing a rent that passed keeps the store free of overlapping bookings of one car |
| Overlap.AvailableImpliesCheck | Program.cs:203-233 | whatever passes the corrected check passes the written one |
| Reports.Describe | Program.cs:154 | the description is "Pickup  " (two spaces) or "Return " followed by the date text |
| Reports.DescribeRoundTrip | Program.cs:154 | the transfer type and the date text can be read back from a description |
| Reports.ReportFields | Program.cs:149-165 | a report carries date, transfer type, car and description; damages is true and "damage" is set as description exactly when the damage draw is 1 |
| Reports.CreateReport | Program.cs:147-169 | exactly one report is appended to the store and the reference returned points to it |
| Crm.Service.CreateRent | Program.cs:397 | the rent is appended to the store and its identifier returned |
| Crm.Service.CreateReport | Program.cs:167-168 | the report is appended to the store and its identifier returned |
| Naming.Decimal | Program.cs:339 | the decimal text of a number is non-empty, all digits, without a leading zero |
| Naming.DecimalRoundTrip | Program.cs:339 | reading the decimal text gives back the number |
| Naming.SampleName | Program.cs:339-341 | every name is 16 characters long |
| Naming.SampleNameLayout | Program.cs:339-341 | for numbers below 10^7 the name is "Sample  -", padding spaces, then the digits |
| Naming.SampleNameRoundTrip | Program.cs:339-341 | the sample number can be read back from its name |
| Naming.SampleNamesDistinct | Program.cs:339-341 | different samples below 10^7 get different names |
| Generator.Schedule | Program.cs:350-355 | pickup and handover lie in the 2019-2020 window and are exactly the drawn duration apart |
| Generator.ActiveCarsOf | Program.cs:175-199 | the car query returns exactly the active cars of the class |
| Generator.SelectedCar | Program.cs:175-200 | the proposed car is an active car of the drawn class |
| Generator.Draft | Program.cs:346-367 | drafting an attempt leaves the name, car, locations, price, customer, paid flag and report references as they were |
| Generator.NewReports | Program.cs:385-393 | Renting and Returned create a pickup report for the car on the pickup day; Returned also a return report on the handover day; other statuses none |
| Generator.Finish | Program.cs:374-393 | finishing an attempt leaves the name, status, state, reserved and actual days and class as they were |
| Generator.DraftWrites | Program.cs:346-367 | an attempt writes status, state, reserved days and class, and the actual days the status calls for; it leaves an actual day as it was when the status does not call for it |
| Generator.FinishWrites | Program.cs:374-393 | a passing attempt sets the car, both locations, the price class price × days, the customer and the paid flag; it adds the pickup report reference (first new report) for Renting and Returned and the return reference (second) for Returned, and leaves them as they were otherwise |
| Generator.DraftedShape | Program.cs:337-373 | rejected attempts keep the name and never set car or report references |
| Generator.AllRejectedEach | Program.cs:370-373 | every attempt before the accepted one failed the availability check |
| Generator.AcceptedConsistent | Program.cs:344-396 | the rent an accepted attempt leaves is consistent: state agrees with status, days in the window, class price × days, an active car of the class, locations and customer from the reference lists, paid only when allowed, report references exactly as the status says, actual days set where the status needs them |
| Generator.AcceptedBooked | Program.cs:360-378 | the accepted rent books its drawn class: class price × rental days and an active car of that class |
| Generator.FinishFromReference | Program.cs:374-381 | the pickup and return locations are transfer locations and the customer is one of the customers |
| Generator.AcceptedLinked | Program.cs:385-393 | the accepted rent's report references point at the reports its attempt appended: for its car, on its reserved pickup and handover days |
| Generator.AcceptedAdmitted | Program.cs:369-374 | the stored car and days are the ones that passed the availability check |
| Generator.SampleAccepted | Program.cs:344-396 | after any number of rejected attempts, the accepted rent is consistent, admitted, and its report references point at the reports its attempt appended |
| Generator.DraftAttempt | Program.cs:346-369 | the fields written before the check are those of the attempt's draft; the car and days checked are the drawn ones |
| Generator.FinishAttempt | Program.cs:374-393 | the fields written after the check, and the reports created, are those the attempt calls for |
| Generator.Attempt | Program.cs:346-395 | an attempt is accepted exactly when its car passes the check; a rejected attempt creates no report |
| Generator.BuildSample | Program.cs:337-396 | earlier attempts all failed; a sample that runs out of attempts holds the last draft and created no report; an accepted one is the finished draft over all earlier drafts, with its reports appended |
| Generator.StoredExtend | Program.cs:397 | storing one more consistent, admitted and linked sample extends the stored run by one |
| Generator.LinkedGrow | Program.cs:167-168 | creating more reports never breaks the link from a rent to its reports |
| Generator.StoredGrow | Program.cs:167-168 | creating more reports keeps every stored sample linked |
| Generator.StoreAccepted | Program.cs:385-397 | storing an accepted sample after the reports its attempt created extends the stored run by one |
| Generator.StoreSample | Program.cs:337-397 | one sample: reports are only appended; if no attempt passes nothing is stored and every attempt failed, otherwise one rent is appended and the stored run grows by one |
| Generator.Generate | Program.cs:335-399 | rents are appended in sample order and reports only appended; the j-th rent is consistent with name for sample j, was admitted against every rent before it, and its report references point at reports of its car on its reserved days; a run that stops early stopped at a sample whose attempts all failed |
| Generator.RejectedThenAccepted | Program.cs:343-373 | with a canceled rent of car 1 over days 0..1 stored, a Returned attempt over those days is rejected and a Created attempt over days 5..6 passes |
| Generator.StaleActualDays | Program.cs:337-364 | that second attempt is stored as Created yet carries the actual pickup and return days of the rejected one |
| Generator.FreshAttemptActualDays | Program.cs:357-364 | from a rent holding only the name, actual days are present exactly when the accepted status calls for them |

## Left out

- `PrepareService`, the connection string, TLS set-up and console output (`Console.WriteLine`, `ReadKey`) are I/O.
- `SetupCarClassList`, `SetupCustomerList` and `SetupTransferLocationList` are thin queries; their results are the lists in `Generator.Reference`. `SetupCarClassList` reads only the first page, without `GetAllByQuery`.
- `RetrieveMultiple`, `Create`, `GetGlobalOptionSetMetadata` and the LINQ translation of the availability query are the abstract store `Crm.Service` and page sequences.
- The quality of `System.Random` is not modelled; distributions are counts of draws.
- `DateTime.ToShortDateString` depends on the culture. It is a function parameter from day number to text.
- `Money` is an integer product; decimal scaling is not modelled.
- Status and transfer type option values (their integer codes) are abstract constants.
- Paging.GetAllByQuery: requires that the store eventually answers with a last page; without one the source loops forever.
- Generator.BuildSample: attempts are a finite sequence. When they run out the sample is not accepted, where the source would keep drawing forever.
- Generator.Generate: stops at the first sample whose attempts run out, so it may store fewer than 40000 rents. Given enough passing attempts it stores all 40000.
- The car query of each attempt reads a live list. The model reads it from the store's fixed car list, so cars created or deactivated during a run are not modelled.
- Sampler.Pick and Generator.InRange: the index draws are required to lie inside non-empty lists. The source throws instead when a list is empty: `rand.Next(0)` returns 0 and index 0 is out of range (Program.cs:173, 199-200, 238, 248). The same holds for a class without active cars and for a class without `new_price` (Program.cs:379). These exceptions are not modelled.
- The corrected definitions in the Findings stand beside the model. `Generator` itself follows the code as written.

## Findings

| source | as written | input that shows it | evidently intended | confidence | as-written member | corrected member |
|---|---|---|---|---|---|---|
| Program.cs:207-226 | the three range cases of the availability query miss a stored rent lying strictly inside the candidate range | a canceled rent of car 7 over days 5..7 and a candidate for car 7 over days 1..10: the check passes | any stored canceled rent of the same car sharing a day with the candidate blocks the car | not executed | Overlap.WrittenCheckAdmitsOverlap | Overlap.AvailablePreservesNoOverlap |
| Program.cs:337-364 | the rent is created once per sample, so actual pickup and return days written by a rejected attempt survive into the accepted one | stored canceled rent of car 1 over days 0..1; attempt 1 Returned over days 0..1 (rejected); attempt 2 Created over days 5..6 (accepted): stored as Created with actual pickup day 0 and actual return day 1 | actual days present exactly when the accepted status calls for them | not executed | Generator.StaleActualDays | Generator.FreshAttemptActualDays |
