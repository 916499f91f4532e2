# Freelance marketplace core, modelled in Dafny

This project models the rules at the heart of the WEBATHON-4.0 freelance
marketplace and proves properties about them:

- **Reputation** (`rating_service.dfy`). A client's 1–5 rating is folded into
  the freelancer's profile for the task's domain. This updates the counters,
  the quality score (the average rating rounded to two decimals) and the
  reliability score (the on-time percentage, with completions as a fallback
  denominator). The level is then recomputed by a threshold chain.
- **Applicant ranking** (`matching_service.dfy`). Each applicant gets a
  weighted score. Applicants are split into an experienced pool and a rookie
  (level 1) pool. Each pool is sorted stably, highest score first, in place on
  an array. The answer is at most 7 experienced applicants followed by at most
  3 rookies, and a short pool is never filled from the other.
- **Pricing advisory** (`pricing_service.dfy`). The recommended budget range
  comes from the average budget of completed tasks in the domain, or 500 per
  day when there are none. It is scaled by difficulty and by a long-task
  discount, and the range is ±20%, each end rounded.
- **Task lifecycle** (`task_service.dfy`, `task_routes.dfy`). A task moves
  Open → InProgress → Completed. The model covers creation, applying (with the
  duplicate check and the Company Zone gate), selection (which counts an
  assignment), completion with on-time detection, and rating at most once.
- **Documents** (`user_model.dfy`, `task_model.dfy`, `database.dfy`). These
  hold the user and task documents, their schema defaults and bounds, the
  deadline hook, and the case-insensitive domain lookup `getDomain`. The
  `Database` class holds the users and tasks collections and the next free id.
  Its `Valid()` says that every stored document passed its schema and every
  task keeps the lifecycle facts.
- **Sign-up** (`auth_service.dfy`): the default profiles and the guards of
  `register`.
- **Route rules** (`task_routes.dfy`): the pricing note, the `my-domains`
  flags, who may read a task or post on its thread, and the applicant
  listing.
- **Client logic** (`available_tasks.dfy`, `countdown_timer.dfy`): the task
  board's eligibility flags, search and removal after applying, and the
  deadline countdown.

Conventions:

- Wall-clock time is a parameter `now`, in milliseconds.
- Database reads are inputs: maps of documents, a sequence of stored tasks,
  or a sequence of user records.
- Each request is one atomic step on a `Database` object.
- An error is `Err(status)`, with the HTTP status the handler answers with.
- A save that breaks the schema bounds is `Err(500)` and stores nothing.
- Scores, budgets and ratings are exact rationals (`real`).
- `Math.round(x)` is `floor(x + 1/2)`.
- Lower-casing is ASCII lower-casing.
- Trimming removes the white space that `String.prototype.trim` removes.
- `register` looks for a duplicate with `email.toLowerCase()`, and the query
  value is cast through the e-mail path's `lowercase` and `trim` setters
  (`src/models/User.js:66-67`). The lookup therefore compares the same
  normal form that is stored, and an e-mail with white space around it is
  refused with a 409 (`AuthService.PaddedEmailRefused`).

Where the code's own comments and the code disagree, the model follows the
code:

- The beginner boost adds 15 to the skill match
  (`src/services/MatchingService.js:101-102`), not the 10 that the comment
  on `computeFinalScore` gives (`src/services/MatchingService.js:87`).
- The header comment of the message route gives access to the task's client
  and selected freelancer only (`src/routes/tasks.js:342`); the code also
  lets applicants in (`src/routes/tasks.js:356-361`). `TaskRoutes.CanView`
  and `TaskRoutes.PostMessage` follow the code.

Two behaviours of the code that a reader might not expect:

- When on-time completions would outnumber recorded assignments (4 assigned,
  4 on time, then one more on-time rating), `applyRating` computes a
  reliability of 125. The schema's maximum of 100 refuses that save, so the
  call answers 500 and stores nothing. `RatingService.RatingOutcome` models
  this, and `RatingService.RatingSucceeds` states when it cannot happen.
- The rate route stores the task's rating before it updates the profile
  (`src/routes/tasks.js:295-305`). If the profile update fails, the route
  answers with that error and the task stays rated. `TaskRoutes.RateTask`
  states both effects.

## Model

| member | source | states |
|---|---|---|
| RatingService.CalculateLevel | src/services/RatingService.js:66-87 | The level is in 1..4. It is at least 2 iff completed ≥ 5. It is at least 3 iff completed ≥ 15, quality ≥ 4 and reliability ≥ 85. It is 4 iff completed ≥ 30, quality ≥ 4.5 and reliability ≥ 90. |
| RatingService.LevelMonotone | src/services/RatingService.js:66-87 | Raising completed tasks, quality or reliability never lowers the level. |
| RatingService.ApplyRating | src/services/RatingService.js:18-58 | The step-by-step update returns the answer and leaves the users collection that `RatingOutcome` gives: 404 for a missing user, 400 for no matching profile, 500 when the save fails, otherwise the rated profile stored. Tasks are unchanged and the store stays valid. |
| RatingService.RatingOutcomeFrame | src/services/RatingService.js:19-55 | An error changes nothing. A success changes only the rated user, and of that user only the first profile matching the domain, which becomes the returned profile. |
| RatingService.RatedCounters | src/services/RatingService.js:33-53 | One rating adds exactly 1 completed task and exactly the rating to the sum. It adds an on-time completion only when on time. It keeps the name, assignments, cancellations and boost expiry. The level is recomputed from the new values. |
| RatingService.RatedQualityInRange | src/services/RatingService.js:37-39 | Quality is the sum over the completions, rounded to two decimals. When all ratings are in [1,5], it stays in [1,5]. |
| RatingService.RatedReliabilityInRange | src/services/RatingService.js:46-50 | Reliability is the on-time percentage of the assigned count, falling back to completions, rounded to two decimals. It is in [0,100] when on-time completions do not exceed that count. |
| RatingService.RatingSucceeds | src/services/RatingService.js:46-55 | A valid rating of a consistent profile, whose on-time completions stay within the assigned count, is never refused by the save. |
| RatingService.RateAllFromFresh | src/services/RatingService.js:33-50 | After any sequence of valid ratings on a fresh profile: completions equal their number, the sum equals their total, quality is their rounded average in [1,5], on-time completions equal the on-time ratings, and the profile stays within the schema bounds. |
| RatingService.LevelCanDrop | src/services/RatingService.js:52-53 | 15 tasks averaging 4.0 give level 3, and one 1-star rating brings quality to 3.81 and the level to 2. So the level is not monotone across ratings. |
| RatingService.FifthRatingReachesLevel2 | src/services/RatingService.js:33-53 | With five assignments recorded (the fifth task's selection included), a fifth on-time 5-star rating after a sum of 16 gives quality 4.2, reliability 100 and level 2. |
| MatchingService.SkillMatch | src/services/MatchingService.js:96-103 | Skill match is in [40,100] and between the level's base and the base + 15. It exceeds the base iff the boost has not expired and the level is not 4, and then it is exactly the base + 15. |
| MatchingService.ComputeFinalScore | src/services/MatchingService.js:90-114 | The weighted score lies in [0,100] when quality is in [0,5] and reliability in [0,100]. |
| MatchingService.AvailableNeverScoresLower | src/services/MatchingService.js:105-113 | Saying "available" never scores lower than saying "busy". |
| MatchingService.QualityNeverHurts | src/services/MatchingService.js:91-113 | A higher quality score never lowers the final score. |
| MatchingService.IndexById | src/services/MatchingService.js:31-34 | Every user is in the id map, under its own id. Every entry is one of the users. |
| MatchingService.BuildUserMap | src/services/MatchingService.js:31-34 | The `forEach` loop builds exactly `IndexById` of the users. |
| MatchingService.Enrich | src/services/MatchingService.js:37-57 | The joined list is no longer than the applicants. Each entry carries the id, availability and application time of one of the applications, the user's name and e-mail, the profile `getDomain` finds for the domain, that profile's score under that availability, rookie iff level 1 and beginner iff fewer than 3 completions. When every applicant joins, nobody is dropped. |
| MatchingService.EnrichConcat | src/services/MatchingService.js:37-57 | The join of two concatenated applicant lists is the concatenation of their joins, so the input order is kept. |
| MatchingService.EnrichSnoc | src/services/MatchingService.js:37-57 | One more applicant adds their joined record at the end, or nothing when they have no user or no profile in the domain. |
| MatchingService.EnrichKeepsJoinable | src/services/MatchingService.js:37-57 | Every applicant with a user and a profile in the domain is in the joined list, whatever the other applicants are. |
| MatchingService.EnrichedMember | src/services/MatchingService.js:37-57 | Any member of the enriched list is well joined to its own application, its user and its profile. |
| MatchingService.PoolsPartition | src/services/MatchingService.js:60-61 | The experienced and rookie pools together are exactly the enriched list, as a multiset. |
| MatchingService.PoolsSeparate | src/services/MatchingService.js:60-61 | The experienced pool holds no rookie, and the rookie pool holds only rookies. |
| MatchingService.PoolsConcat | src/services/MatchingService.js:60-61 | Each pool of a concatenation is the concatenation of the parts' pools, so both pools keep the enriched order. |
| MatchingService.PoolMembers | src/services/MatchingService.js:60-61 | Pool members come from the enriched list, with their pool's rookie flag. |
| MatchingService.InsertDescPermutes | src/services/MatchingService.js:64-65 | Inserting into the sorted list adds exactly that one element. |
| MatchingService.InsertDescSorted | src/services/MatchingService.js:64-65 | Inserting into a list sorted highest first keeps it sorted. |
| MatchingService.InsertDescStable | src/services/MatchingService.js:64-65 | Inserting puts the new element after every element with an equal score. |
| MatchingService.SortDescCorrect | src/services/MatchingService.js:64-65 | The sort returns a permutation of its input, highest score first. |
| MatchingService.SortDescStable | src/services/MatchingService.js:64-65 | The sort is stable: the members with any one score keep their input order. |
| MatchingService.InsertIntoSorted | src/services/MatchingService.js:64-65 | One in-place insertion step leaves the array's prefix equal to `InsertDesc` of the old prefix and the element, and changes nothing after it. |
| MatchingService.SortByScoreDesc | src/services/MatchingService.js:64-65 | The in-place sort leaves the array equal to `SortDesc` of its old contents. |
| MatchingService.TopOfPool | src/services/MatchingService.js:64-69 | Sorting a pool in place and slicing it gives the first k of `SortDesc` of the pool. |
| MatchingService.TopKWithinPool | src/services/MatchingService.js:64-69 | The kept prefix and the dropped rest together are the pool. Nobody dropped outscores anybody kept. |
| MatchingService.TakeSorted | src/services/MatchingService.js:68-69 | A slice is as long as the pool allows, up to k. It is sorted highest first and drawn from the pool. |
| MatchingService.GetTop10Applicants | src/services/MatchingService.js:23-75 | The imperative pipeline returns `Top10` of the applicants, which is empty when there are none. |
| MatchingService.Top10Shape | src/services/MatchingService.js:60-72 | The answer has min(7, experienced) experienced applicants, then min(3, rookies) rookies. It has at most 10, and no slot of one pool goes to the other. Each slice is sorted highest first. |
| MatchingService.Top10Members | src/services/MatchingService.js:37-57 | Every ranked applicant carries the availability and time of their own application, their user's name and e-mail, their profile in the domain and that profile's score. |
| MatchingService.Top10NoLongerThanApplicants | src/services/MatchingService.js:23-75 | The answer is never longer than the applicant list. |
| PricingService.DifficultyMultiplier | src/services/PricingService.js:13 | The multiplier is in [1,2]. It is 1.0 exactly for difficulties other than 2 and 3. |
| PricingService.DurationFactor | src/services/PricingService.js:54 | The factor is 0.9 or 1.0, and below 1 exactly for tasks longer than 7 days. |
| PricingService.MatchedBudgets | src/services/PricingService.js:28-43 | The averaged budgets are all positive, and no more numerous than the history. |
| PricingService.MatchedBudgetsSnoc | src/services/PricingService.js:30-34 | A task that is completed, has a positive budget and is in the domain adds its budget after the earlier ones; any other task adds nothing. |
| PricingService.MatchedBudgetsExactly | src/services/PricingService.js:30-34 | A value is among the averaged budgets iff it is the budget of some task in the history that is completed, positive and in the domain. |
| PricingService.ComputeBudgetRange | src/services/PricingService.js:26-62 | When the centre is not negative, the rounded centre lies within [min, max]. |
| PricingService.ClientBudgetIgnored | src/services/PricingService.js:26-61 | The client's budget never influences the range. |
| PricingService.DomainAverageWithinBudgets | src/services/PricingService.js:45-46 | With history, the average is positive and between the smallest and the largest matched budget. |
| PricingService.AdjustedNonNegative | src/services/PricingService.js:45-55 | The centre is never negative for a duration that is not negative. |
| PricingService.RangeOrdered | src/services/PricingService.js:58-59 | min ≤ max for any duration that is not negative. |
| PricingService.RangeMonotoneInDifficulty | src/services/PricingService.js:48-59 | A harder task never gets a lower min or max. |
| PricingService.UnmatchedTaskIgnored | src/services/PricingService.js:30-34 | A task that is not Completed, has no positive budget or is in another domain never changes the range. |
| PricingService.MatchedBudgetsIgnoreCase | src/services/PricingService.js:31 | Matching the domain ignores case. |
| PricingService.RangeIgnoresDomainCase | src/services/PricingService.js:31 | The range does not depend on the case of the domain. |
| PricingService.NoHistoryExample | src/services/PricingService.js:45-61 | No history, 10 days, difficulty 2 gives the range {5040, 7560}. |
| PricingService.HistoryExample | src/services/PricingService.js:28-61 | Two completed tasks at 3000 and 5000 plus an open one, with 10 days and difficulty 2, give the range {4032, 6048}. |
| TaskService.CreateTask | src/services/TaskService.js:13-38 | Difficulty defaults to 1, and the range is computed from the stored tasks. The task is built with its defaults and deadline. It is stored under a fresh id, or it is `Err(500)` with nothing stored when the schema refuses it. |
| TaskService.ApplyToTask | src/services/TaskService.js:64-124 | 404, 400 (not Open), 409 (already applied), then 403 (Company Zone bar, or no profile in the domain), each changing nothing. Otherwise exactly one application is appended, with availability defaulting to available. The store stays valid, so nobody ever applies twice. |
| TaskService.SelectFreelancer | src/services/TaskService.js:129-172 | 404, 403 (not the owner), 400 (not Open), 400 (not an applicant), each changing nothing. Otherwise the freelancer is selected, the status becomes InProgress, and the users become `WithAssignment`. |
| TaskService.CountAssignment | src/services/TaskService.js:160-169 | The in-place profile update leaves the users equal to `WithAssignment`. |
| TaskService.WithAssignmentFrame | src/services/TaskService.js:160-169 | Exactly one profile, the first match of the selected freelancer, gains exactly one assignment. Nothing else changes. |
| TaskService.WithAssignmentKeepsValid | src/services/TaskService.js:160-169 | Counting an assignment keeps every user schema-valid. |
| TaskService.CompleteTask | src/services/TaskService.js:178-202 | 404. 500 when nobody is selected. 403 for anyone but the selected freelancer. 400 unless InProgress. Otherwise on-time iff now ≤ deadline, and the status becomes Completed. No status ever moves backwards. |
| AuthService.InitializeDomains | src/services/AuthService.js:12-25 | There is one profile per name, in order, with the trimmed name, the fresh defaults and a boost expiring 7 days after now. |
| AuthService.InitializedInBounds | src/services/AuthService.js:12-25 | All initialized profiles pass the schema bounds iff every trimmed name is non-empty. |
| AuthService.RepeatedNamesKept | src/services/AuthService.js:12-25 | Repeated names are not deduplicated, and the lookup finds the first. |
| AuthService.Register | src/services/AuthService.js:32-67 | 400 for a freelancer or both with no domains, before any lookup. 409 when the lower-cased, trimmed e-mail is stored. 500 on a validation failure. Otherwise the new user is stored under the next id, with an e-mail no stored user has. |
| AuthService.SameEmailAnyCaseRefused | src/services/AuthService.js:42-48 | A stored e-mail registered again in other letter case is refused with a 409. |
| AuthService.PaddedEmailRefused | src/services/AuthService.js:42-48 | With "a@b.c" stored, " A@b.c " is refused with a 409: the lookup lower-cases and trims like the stored form. |
| UserModel.FindDomainIndex | src/models/User.js:106-110 | The index of the first profile whose name equals the argument ignoring case. It is None iff no profile matches. |
| UserModel.GetDomain | src/models/User.js:106-110 | A profile is found iff some profile's name matches ignoring case, and the one found matches. |
| UserModel.GetDomainIgnoresCase | src/models/User.js:106-110 | `getDomain(x)` and `getDomain(upper(x))` find the same profile. |
| UserModel.DefaultProfileShape | src/models/User.js:5-53 | A default profile is fresh: quality 0, reliability 100, level 1, counters 0 and a boost for 7 days. It has the trimmed name, and it is in bounds iff that name is non-empty. |
| UserModel.ReplaceProfileKeepsValid | src/models/User.js:11-22 | Replacing a profile by an in-bounds one keeps the user schema-valid. |
| UserModel.NormalizedEmailIsStable | src/models/User.js:62-68 | A stored e-mail is already lower-case and trimmed. |
| TaskModel.NewTaskLifecycle | src/models/Task.js:144-150 | A created task is Open with no applicants. Its deadline is now + duration days, it has no rating and no on-time flag, and difficulty and range take their defaults. It satisfies every lifecycle fact. |
| TaskModel.DeadlineFixedOnLaterSaves | src/models/Task.js:145-150 | Later saves never move the deadline. |
| TaskModel.AppendKeepsNoDuplicates | src/services/TaskService.js:117-120 | Appending someone who has not applied keeps the applicants free of duplicates. |
| Store.StoredTasks | src/services/PricingService.js:28-43 | The history the aggregation scans holds only stored tasks below the bound, every such stored task, and each exactly once, in increasing id order. |
| TaskRoutes.RateTask | src/routes/tasks.js:274-316 | 400 for a missing or out-of-range rating, before any lookup. Then 404, 403, 400 (not Completed) and 409 (already rated), each changing nothing. Otherwise the rating is stored on the task, and the answer and users are `RatingOutcome` for the selected freelancer, the task's domain and its on-time flag. |
| TaskRoutes.NoteFor | src/routes/tasks.js:141-146 | The note is below iff budget < min, above iff min ≤ budget and budget > max, and within iff min ≤ budget ≤ max. |
| TaskRoutes.CentreIsWithinRange | src/routes/tasks.js:141-146 | Offering the rounded centre of the recommendation is "within range". |
| TaskRoutes.MyDomains | src/routes/tasks.js:46-63 | There is one summary per profile, in order, copying its name, level, scores, completed count and boost expiry. Beginner iff fewer than 3 completions. Boost active iff now is before the expiry. |
| TaskRoutes.BoostFlagMatchesRanking | src/routes/tasks.js:54 | The boost flag shown is the condition under which the ranking adds the boost. |
| TaskRoutes.TaskDetail | src/routes/tasks.js:92-121 | 404 iff the task is missing. 403 iff it exists and the caller is not its client, selected freelancer or an applicant. Otherwise the task. |
| TaskRoutes.ViewersAreClientOrApplicants | src/routes/tasks.js:97-104 | For a stored task, readers are exactly the client and the applicants. |
| TaskRoutes.PostMessage | src/routes/tasks.js:344-376 | 400 iff the text is absent or blank. Then 404, and 403 for anyone who may not read the task. Then 500 when the message schema refuses the document (no sender name, or a trimmed text over 2000 characters), otherwise success. The message text is trimmed, non-empty and at most 2000 characters, and it is sent as the client iff the sender is the task's client. |
| TaskRoutes.ListApplicants | src/routes/tasks.js:171-194 | 404 and 403 come before ranking. The answer is `Top10` of the task's applicants, with the raw count, and a returned count of at most 10 and at most the raw count. |
| AvailableTasks.FindSummary | client/src/pages/AvailableTasks.jsx:126-128 | The summary found matches the domain ignoring case. None iff none matches. |
| AvailableTasks.AnnotateAll | client/src/pages/AvailableTasks.jsx:125-144 | Every task is annotated, in order. |
| AvailableTasks.AnnotateFlags | client/src/pages/AvailableTasks.jsx:129-142 | In the domain iff some summary matches. Never eligible outside one's domains. On the Individual board, eligible iff in the domain. |
| AvailableTasks.FindSummaryMirrorsGetDomain | client/src/pages/AvailableTasks.jsx:126-128 | The board finds the summary of the profile the server's `getDomain` finds. |
| AvailableTasks.BoardGateMatchesServer | client/src/pages/AvailableTasks.jsx:131-142 | A task is eligible on its board iff the server's apply checks would pass the domain and Company Zone gates. |
| AvailableTasks.Filtered | client/src/pages/AvailableTasks.jsx:146-149 | A task is kept iff the lower-cased query occurs in its lower-cased title or domain. |
| AvailableTasks.FilteredKeepsOrder | client/src/pages/AvailableTasks.jsx:146-149 | The search distributes over concatenation, so the kept tasks stay in list order. |
| AvailableTasks.EmptySearchKeepsAll | client/src/pages/AvailableTasks.jsx:146-149 | An empty query keeps every task, in order. |
| AvailableTasks.WithoutTask | client/src/pages/AvailableTasks.jsx:157 | The remaining tasks are exactly those with another id. |
| AvailableTasks.WithoutTaskKeepsOrder | client/src/pages/AvailableTasks.jsx:157 | Removal distributes over concatenation, so the order of what remains is kept. |
| AvailableTasks.WithoutTaskRemovesOne | client/src/pages/AvailableTasks.jsx:157 | With unique ids, removing a listed id removes exactly one task. |
| AvailableTasks.WithoutAbsentTask | client/src/pages/AvailableTasks.jsx:157 | Removing an id that is not listed changes nothing. |
| AvailableTasks.Board.constructor | client/src/pages/AvailableTasks.jsx:101-104 | The board starts with the fetched tasks and summaries and an empty search. |
| AvailableTasks.Board.Visible | client/src/pages/AvailableTasks.jsx:117-149 | The rendered entries are exactly the fetched tasks, annotated against the summaries, that match the search. |
| AvailableTasks.Board.HandleApply | client/src/pages/AvailableTasks.jsx:151-161 | After a successful apply, exactly that task leaves the list and is no longer rendered. After a failure, the list stays. The summaries and the search never change. |
| CountdownTimer.Calc | client/src/components/CountdownTimer.jsx:6-14 | Expired iff the difference is ≤ 0. Otherwise days = diff div 86400000, hours in [0,24), and minutes and seconds in [0,60). |
| CountdownTimer.Recompose | client/src/components/CountdownTimer.jsx:9-12 | The parts add back up to the time left, short of it by less than a second. |
| CountdownTimer.Example | client/src/components/CountdownTimer.jsx:6-14 | 93784500 ms left shows as 1d 2h 3m 4s. |
| Common.TrimShape | src/services/AuthService.js:14 | Trimming leaves no white space at either end. It keeps a contiguous piece of the input and removes only white space. |
| Common.TrimEmptyIffBlank | src/routes/tasks.js:347-349 | A text trims to nothing iff it is all white space. |
| Common.ContainsAt | client/src/pages/AvailableTasks.jsx:146-149 | An occurrence at any offset is found by the substring search. |
| Common.ContainsOnlyAt | client/src/pages/AvailableTasks.jsx:146-149 | The substring search finds only real occurrences: when it succeeds, the needle sits at some offset. |
| Common.Round2Within | src/services/MatchingService.js:113 | Rounding to two decimals stays within integer bounds of its argument. |

## Left out

- Persistence is not modelled: Mongoose `find`, `save`, `aggregate` and `populate`, the ObjectId type, and timestamps. Collections are maps and sequences. The tasks the aggregation scans are the stored tasks in id order.
- Concurrency is not modelled. Each request is one atomic step, so the lost-update hazard of concurrent `applyRating` or `selectFreelancer` calls is out of scope.
- Authentication and sessions are left out: JWT signing, bcrypt hashing, the `protect`/role middleware, login and the client's auth context. `register` returns the user; the token and the hashed password are not modelled.
- Rendering, animation, navigation and HTTP wiring in the React pages are left out, along with the chat polling and the countdown's one-second `setInterval`.
- Boot and seeding scripts and the message store are left out. `TaskRoutes.PostMessage` returns the message it would store (after the schema's checks on it), and `GET /:id/messages` is not modelled.
- The listing queries are not modelled. They are database queries, and their filters are not modelled either:
  - `available-tasks` keeps Open tasks, and when given, a segment equal to the requested one and a domain matching the anchored, case-insensitive regular expression built from the requested domain (`src/routes/tasks.js:70-85`); `getAvailableTasks` does the same without the segment. Both sort newest first.
  - `my-tasks` (through `getClientTasks`) keeps the tasks whose client is the caller, newest first.
  - The dashboard keeps the tasks whose selected freelancer is the caller and whose status is InProgress or Completed.
- TaskModel.NewTask: durations are whole days. The schema declares `duration` a `Number` with minimum 1, so it also accepts fractional durations such as 1.5 days; those, and their effect on the fallback price (`500 * duration`) and on the deadline, are not modelled.
- The `submissionNote`/`submissionUrl` update that the complete route makes before calling `completeTask` is not modelled. It is a separate write, with no rule.
- PricingService.ComputeBudgetRange: the domain is matched as case-insensitive equality. The source builds an unescaped regular expression from it, so a domain with regex metacharacters matches differently there.
- Common.Lower: only ASCII letters are lower-cased. Unicode case folding is not modelled.
- MatchingService.ComputeFinalScore: scores are exact rationals. IEEE-754 rounding of the 0.4/0.3/0.2/0.1, 1.4/0.9 and 0.8/1.2 factors, and of `Math.round` near halves, is not modelled.
- Values outside the enums (roles, segments, statuses and availability strings that the schema rejects) are not representable. Non-numeric or NaN ratings are not modelled either.
- The crash of `completeTask` on a task with nobody selected is modelled as `Err(500)`. The exception type is not reproduced.
