# A verified model of the job desk's protocols

The project models the parts of the job-application desk whose correctness is a matter of every run
rather than of one body: the mock ATS server's store, handlers and form algorithms with the page
scripts that must agree with them (`scripts/mock_ats.py`, `scripts/mock_workday.py`), the worker
protocol of the kill test (`benchmarks/performance/imx_perf/`), the company cooldown and the
crash-safe finish (`scripts/real_chrome_policy.py`), the desk's restore race (`apps/web`), the
email-code handoff, the URL index and the review grouping.

`dafny verify dfyconfig.toml` checks everything.

Code that changes state in place is a class, or a method with a loop, whose contract ties the new
state to a function of the old one. Concurrency is a step function over the same functions: `Next`
takes one atomic step (a store call, a browser call, an `await` segment), a step that is not due
does nothing, and `Run` folds any sequence of steps, so a theorem about `Run` is about every
interleaving. Clock readings, random choices, replies that may be lost and the points where a
process may stop are parameters of the steps.

| file | models |
|---|---|
| `Queue.dfy`, `Chaos.dfy`, `ChaosTheorems.dfy`, `ChaosProgress.dfy` | the durable queue and the workers of the kill test |
| `Text.dfy`, `Multipart.dfy`, `MultipartRoundTrip.dfy` | multipart/form-data parsing and its round trip (RFC 7578, section 4.1; RFC 2046, section 5.1.1) |
| `Fields.dfy`, `Validation.dfy`, `ValidationTheorems.dfy`, `ValidationExact.dfy` | conditional fields and form validation |
| `RevealScript.dfy`, `RevealTheorems.dfy` | the page script that mounts follow-ups |
| `Countries.dfy`, `Phone.dfy`, `PhoneTheorems.dfy`, `PhoneTyping.dfy`, `PhoneTable.dfy` | the phone widgets and the country table |
| `JsonValues.dfy`, `Store.dfy`, `StoreHistory.dfy`, `StoreTheorems.dfy` | the persistent store and crash safety |
| `Drafts.dfy`, `DraftFiles.dfy`, `DraftProgress.dfy`, `Handlers.dfy`, `Captcha.dfy` | multistep drafts, request handlers, captchas |
| `Wizard.dfy`, `WizardPages.dfy`, `WizardTheorems.dfy` | the Workday-style wizard, client and server |
| `Cooldown.dfy`, `CooldownTheorems.dfy`, `CooldownApart.dfy`, `Finish.dfy` | company reservations and finishing a confirmed code |
| `Desk.dfy`, `Handoff.dfy` | the desk's restores, the email-code handoff |
| `UrlIndex.dfy`, `ReviewPages.dfy` | the one-pass URL index, the review groups |
| `Wrappers.dfy` | options, results and outcomes |

## Where the code falls short of its purpose

Each of these has a lemma with the exact condition under which the code does meet the property; where
the condition fails, the proof builds the failing input or run.

- A multipart content that begins with the boundary line is lost although it does not contain the
  delimiter (`MultipartRoundTrip.CutIsExact`, `ContentCanBeginWithBoundary`).
- Errors and values share a key when a field is named like the phone country beside a phone widget
  that can be told a number (`ValidationTheorems.ApartExactly`).
- A page and the server disagree for an empty trigger, an empty radio option, a box that reveals
  questions, a question required after anything but a radio group, or one that is neither a radio nor
  a checkbox group required after one (`RevealTheorems.PagesAgreeExactly`).
- With a separate dial code, typing equals pasting only if no code begins another
  (`PhoneTheorems.TypingPastesExactly`); in the plain widget, only if no shared code begins with a
  shorter one (`PhoneTyping.TypingPastesExactly`). The shipped table meets both (`PhoneTable.TableIsSound`).
- A blank wizard draft is kept in memory without being saved, and a crash loses it. Pages, saves and
  submits read the same without it, but the wizard's summary (`GET /__test__/workday`,
  `scripts/mock_ats.py:2106-2113`) lists it before the crash and not after
  (`StoreTheorems.RestartIsExact`, `CrashIsExact`, `OpenedDraftIsLost`).
- The kill test needs three steps an item (`ChaosTheorems.ThreeStepsAreNeeded`).

For the protocols the condition is on one step, at any state reached by steps that met it: taking the
step otherwise has a failing continuation, and taking it then has none.

- A wizard page is skipped, and Submit refused, after a click whose answers, with those still awaited,
  can take the document past a page that is not stored (`WizardTheorems.AcceptedExactly`); for a second
  click on a page being saved, exactly if the next page is not stored (`WizardTheorems.DoubleClick`).
- A finish that begins beside another one, before the line is written, can record a submission twice
  (`Finish.ExactlyOnceExactly`).
- A binding that begins beside a fill, or a fill beside a binding, can replace a filled record
  (`Handoff.FilledStaysExactly`).
- A cooldown is too short after a commit whose clock reading is before a click of its run, unless
  another record of the company covers the click (`CooldownApart.ApartExactly`). A clock that is never
  set back rules that out (`CooldownApart.SteadyIsTimely`). That a click is not before the reading its
  run reserved with is assumed of the runs, and is sufficient only.

## Model

| member | source | states |
|---|---|---|
| `Queue.DurableQueue.constructor` | benchmarks/performance/imx_perf/durable_queue.py:357-397 | a fresh queue holds `count` ready apply items and nothing else |
| `Queue.DurableQueue.RecoverExpired` | benchmarks/performance/imx_perf/durable_queue.py:405-433 | every lapsed row, and no other, is requeued, turned into a reconciliation if its intent is on record, or dead-lettered at its attempt limit |
| `Queue.DurableQueue.ClaimNext` | benchmarks/performance/imx_perf/durable_queue.py:435-479 | after recovery, the chosen ready row and only it is granted under a fresh lease; with none chosen only recovery happens. Which ready row is chosen is a parameter |
| `Queue.DurableQueue.Check` | benchmarks/performance/imx_perf/durable_queue.py:236-242 | exactly the row's current, unlapsed lease is held |
| `Queue.DurableQueue.Renew` | benchmarks/performance/imx_perf/durable_queue.py:481-488 | a held lease gets a new expiry; a lost one changes nothing |
| `Queue.DurableQueue.BeginSubmission` | benchmarks/performance/imx_perf/durable_queue.py:327-346 | the intent is recorded once, for a held lease of a dispatching item; otherwise nothing changes |
| `Queue.DurableQueue.ApplyEffect` | benchmarks/performance/imx_perf/durable_queue.py:501-515 | insert-or-ignore under a held lease that is not a reconciliation; a lost lease changes nothing |
| `Queue.DurableQueue.Complete` | benchmarks/performance/imx_perf/durable_queue.py:520-532 | a held lease is traded for a done row; a lost one changes nothing |
| `ChaosTheorems.EveryRunPasses` | benchmarks/performance/imx_perf/chaos.py:106-187 | safety: with at least three steps an item, every interleaving of any number of workers, kills, lapses and clock readings applies each effect at most once, never grants an item with a recorded intent for applying again, and balances |
| `ChaosTheorems.ThreeStepsAreNeeded` | benchmarks/performance/imx_perf/chaos.py:141-156 | every run passes if and only if there are at least three steps an item |
| `ChaosTheorems.SecondApplication` | benchmarks/performance/imx_perf/chaos.py:154-158 | with two steps a lapsed lease lets a second worker apply the same effect |
| `ChaosTheorems.LostEffect` | benchmarks/performance/imx_perf/chaos.py:141-166 | with fewer than two steps an item is completed with no effect and no reconciliation |
| `ChaosTheorems.CountedIsBalanced` | benchmarks/performance/imx_perf/chaos.py:207-210 | if every item is done and every worker between items, effects plus items reconciled without one equal the items |
| `Chaos.NextKeepsCore` | benchmarks/performance/imx_perf/chaos.py:112-181 | every step keeps: leases are exclusive and current, and what a worker has done agrees with intents and effects |
| `Chaos.NextKeepsLedger` | benchmarks/performance/imx_perf/chaos.py:147-158 | every step keeps: no effect is written twice, and no item is claimed for applying after its intent |
| `Chaos.NextKeepsCounted` | benchmarks/performance/imx_perf/chaos.py:126-132 | every step keeps the count of reconciliations without an effect in step with the ledger, also between completion and counting |
| `Chaos.ReconcileKeepsCounted` | benchmarks/performance/imx_perf/chaos.py:126-132 | routing an item to reconciliation keeps the tally |
| `Chaos.CompletionCounts` | benchmarks/performance/imx_perf/chaos.py:161-166 | completing an item moves it from unwritten to written or to be counted |
| `ChaosTheorems.OnlyReconciliationFails` | benchmarks/performance/imx_perf/chaos.py:126-166 | a worker fails exactly on completing a reconciliation whose lease it has lost |
| `ChaosTheorems.DeadOnlyAfterBudget` | benchmarks/performance/imx_perf/durable_queue.py:417-429 | an item is dead-lettered only after as many grants as it may have attempts, counted apart for applying and for reconciling |
| `ChaosTheorems.DeadLettersExactly` | benchmarks/performance/imx_perf/durable_queue.py:405-433 | after a sweep of any reached state an item is dead if and only if it was, or its lease had lapsed with no attempt left as what it is and no intent of it waits to be reconciled |
| `ChaosProgress.WorkedItemIsDone` | benchmarks/performance/imx_perf/chaos.py:106-187 | from any reached state, an idle worker that claims a waiting or lapsed item for applying, runs its steps unkilled and finishes, all before its lease as last renewed lapses, leaves the item done, its intent recorded, its effect applied and itself idle, whatever all others do in between |
| `ChaosProgress.ReconciledItemIsDone` | benchmarks/performance/imx_perf/chaos.py:126-134 | likewise for an item claimed for reconciling, a lapsed one with an intent included: it ends done and counted, and its effect is neither applied nor taken back |
| `ChaosTheorems.LogTellsAll` | benchmarks/performance/imx_perf/durable_queue.py:327-532 | over any run the log holds an item's intent, effect and completion exactly when the tables do, so what is proved of the log misses nothing |
| `Text.Find` | scripts/mock_ats.py:2147 | the first occurrence of the delimiter, or none if it does not occur |
| `Text.Split` | scripts/mock_ats.py:2147 | the pieces joined by the delimiter are the text |
| `Text.SplitJoin` | scripts/mock_ats.py:2145-2147 | for a delimiter whose first character occurs in it once: splitting a join gives the pieces back if and only if none contains the delimiter |
| `Text.DigitsConcat` | scripts/mock_ats.py:2283 | the digits of a concatenation are the concatenated digits |
| `Text.StripIs` | scripts/mock_ats.py:2159 | stripping takes the white space at both ends, all of it and nothing else |
| `Text.LowerFolds` | scripts/mock_ats.py:2159 | lower case makes two texts equal exactly if they differ in nothing but the case of letters |
| `Multipart.ParseHeaders` | scripts/mock_ats.py:2156-2159 | the loop fills the header dictionary with each line's value, a later line replacing an earlier one |
| `Multipart.AddPart` | scripts/mock_ats.py:2160-2175 | a part is appended under its name to the fields or, with a file name, to the files; a nameless one is skipped |
| `Multipart.ParseMultipart` | scripts/mock_ats.py:2137-2176 | the loop over chunks computes the form or the first error met |
| `Multipart.GatheredIsComplete` | scripts/mock_ats.py:2161-2175 | under every name, fields and files hold exactly the parts of that name, in order |
| `Multipart.CutIsAs` | scripts/mock_ats.py:2148-2155 | the chunks are read up to the closing one, each split at its first blank line; the first that begins no new line or has no blank line decides the error |
| `Multipart.BoundaryIsNeeded` | scripts/mock_ats.py:2141-2143 | a body is refused for want of a boundary exactly if its content type names none, or an empty one |
| `Multipart.HeadersAreLast` | scripts/mock_ats.py:2156-2159 | the header dictionary holds exactly the last line of each name |
| `Multipart.BasenameIs` | scripts/mock_ats.py:2168 | the file name kept is exactly what follows the last slash or backslash |
| `MultipartRoundTrip.CutIsExact` | scripts/mock_ats.py:2147-2155 | the parts of an encoded body come back unchanged if and only if no content, read after the blank line's line break, contains the delimiter |
| `MultipartRoundTrip.ContentCanBeginWithBoundary` | scripts/mock_ats.py:2145-2155 | a content free of the delimiter that begins with the boundary line is not returned |
| `MultipartRoundTrip.RoundTrip` | scripts/mock_ats.py:2137-2176 | for any clean parts, parsing the encoding returns under every name exactly its values in order, fields and files apart |
| `Fields.ShownNow` | scripts/mock_ats.py:277-280 | the loop body computes the shown copy of a field, which `ShownExactly` describes |
| `Fields.RevealedFields` | scripts/mock_ats.py:271-287 | the recursive loop computes the shown fields; what is shown, and of which field, is the subject of the rows below |
| `Fields.UntriggeredStaysHidden` | scripts/mock_ats.py:282-286 | no follow-up, at any depth, of an untriggered field is shown |
| `Fields.TriggeredIsShown` | scripts/mock_ats.py:281-286 | every top-level field is shown, and everything revealed by a triggered one |
| `Fields.ShownExactly` | scripts/mock_ats.py:271-287 | of a field of the tree, at any depth, nothing is shown under its name but its copy: every attribute as defined, and required exactly if it was or a nonempty value is posted under its group, and none under its box |
| `Fields.ShownAreCopies` | scripts/mock_ats.py:271-287 | whatever is shown is such a copy of a field of the tree |
| `Fields.ShownAreDistinct` | scripts/mock_ats.py:271-287 | no name is shown twice |
| `Validation.Validate` | scripts/mock_ats.py:2204-2276 | the loop computes the report of the fields' verdicts, which `ReportIsAsPosted` describes |
| `Validation.ValidateFile` | scripts/mock_ats.py:2221-2233 | a file field enters the report as new, retained, wrong, missing or not at all |
| `Validation.ValidateChoices` | scripts/mock_ats.py:2237-2245 | a choice list enters the report as its verdict says, which `ReportIsAsPosted` describes |
| `Validation.ValidateText` | scripts/mock_ats.py:2247-2275 | a text-like field enters the report as its one distinct answer, or as its first error in the order of the checks |
| `ValidationTheorems.JudgeExact` | scripts/mock_ats.py:2219-2275 | a field is rejected exactly if its posting is not acceptable, a predicate that states no order of checks |
| `ValidationTheorems.SoundAndComplete` | scripts/mock_ats.py:2204-2276 | there are no errors if and only if every enabled named field is posted acceptably: required ones answered, choices enabled options, formats met |
| `ValidationTheorems.TallyIsExact` | scripts/mock_ats.py:2215-2276 | with distinct names a field's key is an error, a value or a file exactly as its own verdict says |
| `ValidationTheorems.ReportIsExact` | scripts/mock_ats.py:2215-2276 | the report holds each field's verdict, whatever the other fields are |
| `ValidationTheorems.KeysAreNames` | scripts/mock_ats.py:2215-2276 | every reported key is a field's name, or the phone country beside an accepted phone number |
| `ValidationTheorems.ApartUnlessClash` | scripts/mock_ats.py:2272-2275 | no key is both an error and a value or file unless a field shares the phone country's name with a phone widget that can be told a number |
| `ValidationTheorems.ApartExactly` | scripts/mock_ats.py:2272-2275 | errors and answers are apart on every posting if and only if no other enabled field is named like the phone country beside a phone widget that can be told a number: one without options, or with an option that is a number it accepts |
| `ValidationTheorems.RequiredIsCarried` | scripts/mock_ats.py:2219-2260 | an error-free report carries an answer or a file for every enabled required field, repeated names included |
| `ValidationTheorems.UntriggeredIsNeverRecorded` | scripts/mock_ats.py:6917-6923 | a follow-up whose trigger was not posted is neither recorded nor reported |
| `ValidationExact.ReportIsAsPosted` | scripts/mock_ats.py:2204-2276 | with distinct names each field is reported as its outcome, said from the posting alone: all posted nonempty choices, each as often as posted and in order; the first upload with a file name, or the retained record; the one distinct answer; or the message of the first check that objects |
| `ValidationExact.OutcomeIsOne` | scripts/mock_ats.py:2219-2275 | a field and a posting have no other outcome |
| `ValidationExact.CountryIsAsPosted` | scripts/mock_ats.py:2272-2275 | the phone country reported is the first one posted, exactly if a phone widget was answered |
| `ValidationExact.NonEmptyKeeps` | scripts/mock_ats.py:2239 | the recorded choices are exactly the list with the nonempty values in their order and number |
| `ValidationExact.MissingExactly` | scripts/mock_ats.py:2219-2260 | a field is reported missing exactly if it is shown, active and unanswered, and is required or its group is answered, and its box is not checked |
| `ValidationExact.EmailIs` | scripts/mock_ats.py:82 | the address check accepts exactly a local part, an at sign and a dotted domain without white space or a second at sign |
| `Phone.Widget.LongestMatch` | scripts/mock_ats.py:3063-3067 | the loop finds the longest dial code that begins the digits, the current country winning ties |
| `Phone.BestMatches` | scripts/mock_ats.py:3063-3067 | the match begins the digits, no longer code does, and there is none exactly if no code begins them |
| `Phone.Widget.Format` | scripts/mock_ats.py:3059-3078 | one input event takes the widget to the formatted value and the matched country |
| `Phone.Widget.TakeDialCode` | scripts/mock_ats.py:3010-3021 | one input event moves the matched dial code out of the input |
| `Phone.InputIsSet` | scripts/mock_ats.py:3059-3078 | an international number is shown as a plus sign, the longest dial code that begins it and its national digits (in two groups of three and the rest for code 1, with the last four apart for any other), under the code's country unless the current one has it; any other text is left as it is |
| `Phone.SeparateIsCut` | scripts/mock_ats.py:3010-3021 | with the dial code apart, the national digits alone stay, under the country of the longest code that begins the number unless the current one has it |
| `PhoneTheorems.InputKeepsDigits` | scripts/mock_ats.py:3059-3078 | formatting loses no digit and adds none |
| `PhoneTheorems.InputIsIdempotent` | scripts/mock_ats.py:3059-3078 | formatting what was formatted changes neither value nor country |
| `PhoneTheorems.MismatchExactly` | scripts/mock_ats.py:2279-2294 | after an input event the server reports a country mismatch exactly if the number is international and begins with no code of the table |
| `PhoneTyping.TypedIs` | scripts/mock_ats.py:3059-3078 | typing a plus sign and digits key by key shows the value that entering them at once shows; only the country can differ |
| `PhoneTyping.TypingPastesExactly` | scripts/mock_ats.py:3059-3078 | in the plain widget, typing equals pasting, country and value, for every current country and number if and only if no code shared by two countries begins with a shorter code |
| `PhoneTyping.TypingIsPasting` | scripts/mock_ats.py:3059-3078 | in a table where no code begins another, typing equals pasting whatever the current country, known or not |
| `PhoneTheorems.CodeAndNationalAreTyped` | scripts/mock_ats.py:3010-3021 | with the dial code apart, code plus national digits are always the digits typed |
| `PhoneTheorems.TypingPastesExactly` | scripts/mock_ats.py:3010-3021 | with the dial code apart, typing equals pasting for every country and number if and only if no code begins another |
| `PhoneTheorems.PrefixStopsTyping` | scripts/mock_ats.py:3010-3021 | where one code begins another, typing the longer one stops at the shorter |
| `PhoneTable.TableIsSound` | scripts/mock_ats.py:592-603 | the shipped table has distinct countries, digit codes, and no code that begins another |
| `RevealScript.Script.OnChange` | scripts/mock_ats.py:4104-4119 | a change mounts or removes the question's follow-ups and, if it checked a radio or a box, marks the groups that wait for it |
| `RevealScript.Script.Mount` | scripts/mock_ats.py:4073-4096 | mounting twice is mounting once |
| `RevealScript.Script.Unmount` | scripts/mock_ats.py:4097-4102 | removed follow-ups take their answers with them |
| `RevealScript.Script.MarkFollowers` | scripts/mock_ats.py:4125-4146 | every radio or checkbox group required after the changed question, and no other, is marked |
| `RevealScript.PostsOnlyShown` | scripts/mock_ats.py:4097-4102 | whatever the user does, on any page, nothing is posted but answers to questions shown: removed follow-ups take theirs with them |
| `RevealTheorems.NextKeepsTracks` | scripts/mock_ats.py:4062-4146 | on a sound page every change of any question keeps mounted follow-ups and marks equal to what the answers trigger |
| `RevealTheorems.SoundPagesAgree` | scripts/mock_ats.py:4062-4146 | on a sound page, after any choosing, checking, unchecking and typing, the visible questions and their required marks are those the server computes |
| `RevealTheorems.PagesAgreeExactly` | scripts/mock_ats.py:4062-4146 | page and server agree after every sequence of changes if and only if the page is sound: no empty trigger or empty option the script misreads, no box that reveals, and no question required after one that can be answered, unless it is a radio or checkbox group required after a radio group without empty options |
| `RevealTheorems.MountsAmiss` | scripts/mock_ats.py:4064-4103 | an empty trigger, an empty option revealing on any, or a box that reveals makes the page show what the server does not |
| `RevealTheorems.MarksAmiss` | scripts/mock_ats.py:4141-4145 | a question required after a text field, a select, a box or an empty option, or of a kind the page never marks, is marked differently |
| `Store.Store.constructor` | scripts/mock_ats.py:1800-1811 | a restart reads the state file, or begins and saves an empty state |
| `Store.Store.Save` | scripts/mock_ats.py:1835-1838 | the state file goes from the old state to the new one in one step |
| `Store.Disk.WriteBytes` | scripts/mock_ats.py:1868 | a file being written holds anything until it holds the bytes |
| `Store.Store.CountLoad` | scripts/mock_ats.py:1852-1857 | memory and disk end as described, through exactly the described disk images: counts and saves |
| `Store.Store.StoreUpload` | scripts/mock_ats.py:1864-1879 | memory and disk end as described, through exactly the described disk images: next number, file written, record made, saved, in this order |
| `Store.Store.AddSubmission` | scripts/mock_ats.py:1886-1914 | memory and disk end as described, through exactly the described disk images: numbered, appended, saved |
| `Store.Store.AddRejection` | scripts/mock_ats.py:1916-1928 | memory and disk end as described, through exactly the described disk images: numbered, appended, saved |
| `Store.Store.Reveal` | scripts/mock_ats.py:1945-1952 | memory and disk end as described, through exactly the described disk images: only a hidden submission changes |
| `Store.Store.AddAlert` | scripts/mock_ats.py:1980-1985 | memory and disk end as described, through exactly the described disk images: appended, saved |
| `Store.Store.SaveStep` | scripts/mock_ats.py:1988-2010 | memory and disk end as described, through exactly the described disk images: the step replaced and files merged in the given or a new draft; an unknown draft fails and changes nothing |
| `Store.Store.NewCaptcha` | scripts/mock_ats.py:2017-2024 | memory and disk end as described, through exactly the described disk images: a new unused challenge under the next number |
| `Store.Store.ConsumeCaptcha` | scripts/mock_ats.py:2030-2038 | memory and disk end as described, through exactly the described disk images: an unused challenge is spent whatever the answer; accepted exactly if it was unused and the answer matches |
| `Store.Store.NewSession` | scripts/mock_ats.py:2041-2047 | memory and disk end as described, through exactly the described disk images: a session under a derived token |
| `Store.Store.WdCreateAccount` | scripts/mock_ats.py:2073-2080 | memory and disk end as described, through exactly the described disk images: created exactly if the address is new |
| `Store.Store.WdOpen` | scripts/mock_ats.py:2087-2091 | memory and disk end as described, through exactly the described disk images: a blank draft appears in memory only |
| `Store.Store.WdSavePage` | scripts/mock_ats.py:2093-2097 | memory and disk end as described, through exactly the described disk images: one page of one draft replaced |
| `Store.Store.WdSetResume` | scripts/mock_ats.py:2099-2104 | memory and disk end as described, through exactly the described disk images: the draft's resume replaced |
| `StoreTheorems.EveryRunIsSafe` | scripts/mock_ats.py:1835-1838 | over any run of operations and crashes, disk and memory agree up to blank wizard drafts and every recorded upload's file matches its record |
| `StoreTheorems.CrashIsAtomic` | scripts/mock_ats.py:1835-1842 | after a crash anywhere in an operation and a restart, the store is exactly as after the operation, or exactly as last saved, which is the state before it up to blank wizard drafts |
| `StoreTheorems.RecordedFilesHold` | scripts/mock_ats.py:1864-1879 | every recorded upload's file has the recorded size and digest |
| `StoreTheorems.UploadsAreForever` | scripts/mock_ats.py:1864-1879 | however a run goes on, with operations finished or cut short, a recorded upload keeps its record and its file keeps its bytes |
| `StoreTheorems.UploadIsStored` | scripts/mock_ats.py:1864-1879 | a finished upload gets a number no recorded one has, and after any continuation of the run its file holds exactly the bytes sent |
| `StoreTheorems.RestartIsExact` | scripts/mock_ats.py:2087-2091 | at any point of any run a restart changes nothing if and only if no wizard draft was opened for an address without one since the last save or restart |
| `StoreTheorems.CrashIsExact` | scripts/mock_ats.py:1835-1842 | every crash, at every point of every operation, leaves exactly the state before or after it if and only if no wizard draft was opened anew since the last save or restart |
| `StoreTheorems.OpenedDraftIsLost` | scripts/mock_ats.py:2087-2091 | a draft opened and not saved is listed by the wizard's summary, and after a crash no longer is |
| `StoreTheorems.SameViewSameDrafts` | scripts/mock_ats.py:2087-2091 | reading a blank draft gives what reading an absent one gives |
| `StoreHistory.HoldsWhatWasLastWritten` | scripts/mock_ats.py:1844-2104 | after any operations a fact (a step or file of a draft, a page or resume of a wizard draft, an application and its visibility, an upload, a rejection, an alert, a captcha and its use, a session, an account, a load count) holds exactly if the last operation that wrote its place wrote just that |
| `StoreHistory.NumbersCount` | scripts/mock_ats.py:1840-1842 | each counter counts what was made under it |
| `Captcha.RunKeepsInv` | scripts/mock_ats.py:6701-6729 | over any interleaving, each captcha let at most the one recorded handler through |
| `Captcha.AcceptedByDistinctTokens` | scripts/mock_ats.py:6701-6729 | accepted applications map injectively to issued, used captchas |
| `Captcha.NeverMoreThanIssued` | scripts/mock_ats.py:2017-2038 | accepted applications never outnumber the captchas issued |
| `Captcha.AttemptSpends` | scripts/mock_ats.py:2030-2038 | any nonblank attempt, right or wrong, spends the challenge |
| `Captcha.SpentForGood` | scripts/mock_ats.py:2030-2038 | a spent challenge lets nobody else through, however the run goes on |
| `Captcha.AnswersDecide` | scripts/mock_ats.py:6701-6729 | an undisturbed application is accepted and added exactly if its answer is the unused challenge's and it has no other errors, and is recorded as a rejection otherwise |
| `Handlers.StoreFiles` | scripts/mock_ats.py:6746-6752 | every new upload is stored under a number of its own with its name, size, digest and bytes, every retained file keeps its record, nothing else changes |
| `Handlers.PostStep` | scripts/mock_ats.py:6909-6938 | exactly if neither the report nor the captcha step has errors, the step holds the validated values and every name that the report carries a file for holds exactly that upload's new or retained record, all other steps, files and drafts as they were; otherwise no draft changes and a rejection is recorded |
| `Handlers.FirstIncomplete` | scripts/mock_ats.py:6880-6883 | the first missing step, or none |
| `Handlers.MergeSteps` | scripts/mock_ats.py:7053-7055 | the steps' values merged in order, later ones winning |
| `Handlers.PostSubmit` | scripts/mock_ats.py:7045-7057 | an application with all steps' values and the draft's files is added exactly if no step is missing |
| `Handlers.CaptchaPassed` | scripts/mock_ats.py:6701-6709 | passes exactly for a matching answer to an unused challenge; a blank answer touches nothing |
| `Handlers.PostApply` | scripts/mock_ats.py:6687-6729 | accepted exactly if the report, the identity checks and the other checks have no errors and the captcha passes, and then with the report's values and exactly its files; an attempt spends the captcha either way |
| `Drafts.StoredStepsAreValid` | scripts/mock_ats.py:6909-6938 | under any interleaving of posts and submits, every stored step is the error-free result of the posting that a handler of the run judged and saved as that step of that draft, under the run's rules, and its files are kept |
| `Drafts.JudgedWasPosted` | scripts/mock_ats.py:6909-6924 | what a handler has judged was posted to this very handler, opened for that step |
| `Drafts.SavedWasPosted` | scripts/mock_ats.py:6909-6938 | every save was made by the handler that judged this very posting, and it made this draft or added to it |
| `Drafts.StepsAreNeverRemoved` | scripts/mock_ats.py:1988-2010 | no draft, step or file of a draft is ever removed |
| `Drafts.SubmissionsAreComplete` | scripts/mock_ats.py:7045-7057 | every accepted multistep application is the merge of one part for every step: each the error-free result of a posting a handler of the run judged and saved as that step of that very draft, with an answer or a file carried for every question that posting required |
| `Drafts.NextKeepsInv` | scripts/mock_ats.py:6909-7057 | every atomic step of every handler keeps drafts, submissions and handlers in order |
| `DraftFiles.DraftsHoldWhatWasLastBrought` | scripts/mock_ats.py:1988-2010 | at any moment of any run a draft holds a step's answers, or a file's record, exactly if they are what the last save of it that brought any had brought |
| `DraftFiles.SavesBringTheirReport` | scripts/mock_ats.py:6917-6936 | a save brings the values and all files of the error-free report of the posting its handler judged |
| `DraftFiles.BroughtFileWasPosted` | scripts/mock_ats.py:6917-6936 | a file so brought is the record, kept for good, of the first upload posted under its name, or the record this handler had read from the draft |
| `DraftFiles.ApplicationsWereTaken` | scripts/mock_ats.py:7045-7057 | an accepted application of a draft holds exactly the draft's files as one event of the run found them, and merges the steps its handler had read by then |
| `DraftFiles.TakenPartsWereRead` | scripts/mock_ats.py:7053-7055 | each merged step is the draft's as an earlier event found it, one after the other |
| `DraftFiles.ApplicationsCarryTheLastFiles` | scripts/mock_ats.py:7045-7057 | an accepted application carries exactly the files that, when they were read, the last saves to bring them had brought |
| `DraftProgress.PostCompletes` | scripts/mock_ats.py:6909-6938 | at any moment of any run an undisturbed post without errors leaves in the draft the report's values and exactly the record of every file of the report |
| `DraftProgress.SubmitCompletes` | scripts/mock_ats.py:7045-7057 | an undisturbed submit of a draft that lacks no step adds one application: all steps merged in order, and the draft's files |
| `Wizard.ValidatePage` | scripts/mock_workday.py:194-243 | the loop computes the page's errors, or the unknown-page error; `AcceptedExactly` and `ErrorsExactly` say which |
| `Wizard.NoErrorsExactly` | scripts/mock_workday.py:201-243 | a page has no errors exactly if every question on its own has none |
| `Wizard.StillValid` | scripts/mock_workday.py:207-214 | answers accepted without a resume, or with another one, stay accepted |
| `WizardPages.AcceptedExactly` | scripts/mock_workday.py:194-243 | a page has no errors exactly if it exists and every question is answered acceptably: a listed value, leaves of the tree, a checked box, a valid date, address or ten-digit number without a plus sign, a resume, or nothing where nothing is required |
| `WizardPages.ErrorsExactly` | scripts/mock_workday.py:194-243 | with distinct names, a name is among the errors exactly if its own question fails, and with the message its kind has |
| `Wizard.Script.OnNext` | scripts/mock_workday.py:1017-1027 | a click sends the page, or a submit on Review |
| `Wizard.Script.OnBack` | scripts/mock_workday.py:1034-1036 | one page back, not before the first |
| `Wizard.Script.OnReply` | scripts/mock_workday.py:1027-1032 | an accepted save advances from wherever the document is by then |
| `Wizard.StoreKeepsDrafts` | scripts/mock_ats.py:2087-2104 | the drafts of the runs are the store's |
| `WizardTheorems.RunKeepsInv` | scripts/mock_ats.py:7168-7216 | over any run of careful clicks no document can get past a page that is not stored, whatever answers it still waits for, and every submit on its way will be accepted |
| `WizardTheorems.OneAtATimeIsCareful` | scripts/mock_workday.py:1017-1033 | sending no page while a save is unanswered is careful |
| `WizardTheorems.SubmitIsAccepted` | scripts/mock_ats.py:7168-7216 | over any run of careful clicks, and so over any that sends one page at a time, Submit from Review is always accepted, whatever is saved again, lost or replaced meanwhile |
| `WizardTheorems.ReachedPagesAreStored` | scripts/mock_workday.py:1017-1033 | over such a run every page before a document's own is in the draft and still valid |
| `WizardTheorems.AcceptedExactly` | scripts/mock_workday.py:1017-1036 | after any careful run, for pages that can be completed, a click leaves no careful continuation with a refused submit if and only if it is careful: for every later page that is not stored, the answers the document then waits for, those for that page aside, cannot take it beyond the page |
| `WizardTheorems.DoubleClick` | scripts/mock_workday.py:1017-1033 | a second click while the one unanswered save is of the document's own page, both postings passing, is careful if and only if the next page is Review or stored |
| `WizardTheorems.SaveCompletes` | scripts/mock_workday.py:1017-1033 | an undisturbed save of an accepted page stores exactly these answers of this page and goes one page on; of a refused one, stores nothing and stays |
| `WizardTheorems.UploadIsKept` | scripts/mock_ats.py:2099-2104 | an uploaded resume is the draft's until another is uploaded |
| `WizardTheorems.WizardCompletes` | scripts/mock_workday.py:1017-1033 | a document loaded anew whose pages are answered in turn without errors and undisturbed comes to Review, and its Submit is accepted |
| `WizardTheorems.BackAndRestart` | scripts/mock_workday.py:1034-1036 | Back goes one page back, not before the first; a restart loses the requests under way and keeps drafts and documents |
| `Cooldown.Guard.Latest` | packages/core/src/interviewmaxxing_core/company_guard.py:144 | the latest application time of the company |
| `Cooldown.Guard.Reserve` | packages/core/src/interviewmaxxing_core/company_guard.py:132-155 | a token exactly if nothing pending, undated or within the cooldown stands in the way; otherwise the first such reason, with the latest application's end of cooldown |
| `Cooldown.Guard.Release` | packages/core/src/interviewmaxxing_core/company_guard.py:157-166 | only a pending row is deleted |
| `Cooldown.Guard.Commit` | packages/core/src/interviewmaxxing_core/company_guard.py:168-179 | a pending row is consumed once; nothing else changes |
| `Cooldown.Guard.RecordHistory` | packages/core/src/interviewmaxxing_core/company_guard.py:181-203 | a source is imported once |
| `Cooldown.DispatchTracker.Cli` | scripts/real_chrome_policy.py:121-126 | no submit click reaches the browser before the flag is set |
| `Cooldown.SubmitInAnyCase` | scripts/real_chrome_policy.py:116-126 | a submit is a click whose arguments name the button in upper or lower case |
| `Cooldown.Settle` | scripts/real_chrome_policy.py:129-143 | released, committed or kept exactly by the ending and the flag |
| `Cooldown.WhatBlocks` | packages/core/src/interviewmaxxing_core/company_guard.py:132-203 | a reservation blocks its company at once, an imported application until a cooldown after it or, undated, for good; a source imported before changes nothing, and other companies are left alone |
| `Cooldown.WhatFrees` | packages/core/src/interviewmaxxing_core/company_guard.py:157-179 | a pending reservation that alone stands in the way frees it at once when released and, when committed, exactly from a cooldown after the commit |
| `CooldownTheorems.FreedExactly` | scripts/real_chrome_policy.py:129-143 | over any run a reservation is gone if and only if its run reported no acceptance or raised before a dispatch, and one that raised then made no click |
| `CooldownTheorems.CommittedBeforeReserved` | packages/core/src/interviewmaxxing_core/company_guard.py:132-155 | an earlier possibly accepted run of a company was committed a full cooldown before the reading a later one reserved with, though calls read the clock before their transactions |
| `CooldownTheorems.RunKeepsTimes` | packages/core/src/interviewmaxxing_core/company_guard.py:132-179 | with readings that never decrease, clicks are not before the reading of the reservation nor after that of the commit, wherever a call waits between its reading and its transaction |
| `CooldownApart.TimelyClicksApart` | scripts/real_chrome_policy.py:98-144 | if no click is before the reading its run reserved with and no commit is too early, no two possibly accepted runs of a company click within the cooldown, whatever other companies' and dropped calls read |
| `CooldownApart.SteadyIsTimely` | packages/core/src/interviewmaxxing_core/company_guard.py:132-179 | a run whose clock readings never decrease has every click and commit timely |
| `CooldownApart.SteadyClicksApart` | scripts/real_chrome_policy.py:98-144 | in a run whose clock readings never decrease, no two possibly accepted runs of a company click within the cooldown |
| `CooldownApart.ApartExactly` | scripts/real_chrome_policy.py:98-144 | after any timely run, committing a pending reservation leaves the clicks of one company a cooldown apart in every timely continuation if and only if its reading is not before a click of its run, or another application of the company, undated or no earlier than that click, is on record |
| `Finish.Records.AlreadyRecorded` | scripts/real_chrome_policy.py:181-185 | the scan finds a submitted line of the token exactly if there is one |
| `Finish.Records.FinishGreenhouseCode` | scripts/real_chrome_policy.py:147-197 | one call records everything, or fails without a change unless only the card is missing |
| `Finish.ExactlyOnce` | scripts/real_chrome_policy.py:170-196 | over any run of crashes and reruns where each call begins when nothing is under way, the line is already written or the reservation is unknown, there is at most one submitted line, and once the pending file is gone the token is committed, one line exists and a linked card is applied |
| `Finish.RerunCompletes` | scripts/real_chrome_policy.py:170-196 | after any such run an undisturbed call completes |
| `Finish.StepsAreTheCall` | scripts/real_chrome_policy.py:170-196 | the atomic steps of an undisturbed call are the call |
| `Finish.FinishRecords` | scripts/real_chrome_policy.py:170-197 | an undisturbed call consumes the reservation at its own time unless it was consumed before, adds one line at the end exactly if there was none, and moves a linked card one revision on unless it is there |
| `Finish.ExactlyOnceExactly` | scripts/real_chrome_policy.py:181-188 | after any such run, a call that begins leaves every continuation in which no further call begins with at most one submitted line and a complete record if and only if it begins when nothing is under way, the line is already written or the reservation is unknown |
| `Desk.ApplicationDesk.BeginLoad` | apps/web/components/ApplicationDesk.tsx:102-104 | a new generation begins |
| `Desk.ApplicationDesk.CandidateArrived` | apps/web/lib/restore.ts:23-26 | a live desk asks for what the storage names |
| `Desk.ApplicationDesk.CandidateFailed` | apps/web/components/ApplicationDesk.tsx:142-156 | the followed id is kept, and reported while nothing newer was chosen |
| `Desk.ApplicationDesk.StatusArrived` | apps/web/lib/restore.ts:25-35 | only a definitive not-found forgets the id, and only if the storage still names it |
| `Desk.ApplicationDesk.ApplyOutcome` | apps/web/components/ApplicationDesk.tsx:123-141 | an outcome of an older generation, or of an id no longer stored, is discarded |
| `Desk.ApplicationDesk.StopFollowing` | apps/web/components/ApplicationDesk.tsx:159-163 | a new generation with no followed id |
| `Desk.ApplicationDesk.Adopt` | apps/web/components/ApplicationDesk.tsx:195-205 | a new generation shows and follows the given application |
| `Desk.ApplicationDesk.OpenForReview` | apps/web/components/ApplicationDesk.tsx:212-217 | a new generation |
| `Desk.ApplicationDesk.StartAnother` | apps/web/components/ApplicationDesk.tsx:372-382 | a new generation with no view and no followed id |
| `Desk.GenerationCountsChoices` | apps/web/components/ApplicationDesk.tsx:91-93 | the generation counts the choices and loads so far |
| `Desk.CurrentExactly` | apps/web/components/ApplicationDesk.tsx:103-104 | a load is current exactly if nothing was chosen and no load begun since it began |
| `Desk.RestoredExactly` | apps/web/components/ApplicationDesk.tsx:123-131 | in every interleaving a restored view is shown if and only if nothing was chosen or loaded since and the storage still names it |
| `Desk.ViewChangesOnlyBy` | apps/web/components/ApplicationDesk.tsx:129-131 | among the modelled segments only adopting, starting another and a shown restore change the view |
| `Desk.UnreadKeepsFollowing` | apps/web/components/ApplicationDesk.tsx:134-140 | a status that cannot be read keeps the id and the view |
| `Desk.DroppedOnlyBy` | apps/web/lib/restore.ts:29-33 | a followed id stays followed until an explicit choice or a definitive not-found of that id |
| `Desk.RestoreCompletes` | apps/web/components/ApplicationDesk.tsx:102-157 | a load that nothing disturbs shows the application it finds, forgets one that is not found and says so, and keeps following one it cannot read and says so |
| `Desk.ChoicesAre` | apps/web/components/ApplicationDesk.tsx:159-217 | what adopting, stopping, starting another and opening for review each change, and that they leave the loads alone |
| `Desk.LookFailsKeeps` | apps/web/components/ApplicationDesk.tsx:142-156 | a candidate that cannot be read keeps id and view, and is reported exactly if the desk follows an application and nothing was chosen since |
| `Handoff.Tab.Bind` | scripts/greenhouse_code_handoff.py:76-86 | binds the one code field or nothing |
| `Handoff.Tab.Fill` | scripts/greenhouse_code_handoff.py:88-100 | fills exactly the field bound to this challenge on this page, if it is empty or holds this code |
| `Handoff.Pending.FillFromGmail` | scripts/greenhouse_code_handoff.py:198-222 | the record says filled exactly if the checks pass, both answers arrive and the page still shows the code |
| `Handoff.FillOverwritesNothing` | scripts/greenhouse_code_handoff.py:88-97 | a fill replaces no nonempty value and touches no other input |
| `Handoff.RetryExactly` | scripts/greenhouse_code_handoff.py:94-97 | after a lost answer, a repeated fill is accepted exactly with the same code |
| `Handoff.RebindingRetires` | scripts/greenhouse_code_handoff.py:76-93 | once rebound, the former challenge can fill nothing |
| `Handoff.OneFillPerChallenge` | scripts/greenhouse_code_handoff.py:198-222 | at most one fill succeeds per challenge, in every run, even with any number of bindings racing each other and the fills |
| `Handoff.SuccessWasReadBack` | scripts/greenhouse_code_handoff.py:101-104 | a success was read back from the bound field |
| `Handoff.SerialStaysFilled` | scripts/greenhouse_code_handoff.py:107-141 | in any run with no binding beside a fill, nothing but its removal changes a filled record |
| `Handoff.FilledStaysExactly` | scripts/greenhouse_code_handoff.py:107-141 | after any run with no binding beside a fill, an event leaves a filled record unchanged, but for its removal, in every continuation in which nothing further begins if and only if it begins no binding beside a fill and no fill beside a binding |
| `Handoff.BindCompletes` | scripts/greenhouse_code_handoff.py:107-141 | an undisturbed binding makes the page's one code field the new challenge's and records the challenge unfilled |
| `Handoff.FillCompletes` | scripts/greenhouse_code_handoff.py:198-222 | an undisturbed fill of an empty field, or one that holds the code already, enters the code, changes no other input and marks the challenge filled |
| `Handoff.RecordWasBound` | scripts/greenhouse_code_handoff.py:107-141 | in every run the challenge a record names was bound to the one code field of the page at the record's URL |
| `UrlIndex.ScanGroup` | scripts/application_schema_registry.py:38-44 | the inner loop counts repeats, notes conflicts with the last backend seen and overwrites it |
| `UrlIndex.ExportUrlIndex` | scripts/application_schema_registry.py:31-52 | the single pass computes the export, or fails on the first invalid backend or URL |
| `UrlIndex.DropConflicts` | scripts/application_schema_registry.py:45-46 | exactly the conflicting URLs are deleted |
| `UrlIndex.IndexExactly` | scripts/application_schema_registry.py:31-46 | a URL maps to a backend if and only if some row lists it and all its rows name that backend |
| `UrlIndex.OmittedExactly` | scripts/application_schema_registry.py:41-46 | exactly the URLs with two different backends are omitted |
| `UrlIndex.ExportExactly` | scripts/application_schema_registry.py:31-46 | from the inventory on: a URL is exported for a backend if and only if some entry of it lists the URL in some form and no entry of another backend does |
| `UrlIndex.CountsAddUp` | scripts/application_schema_registry.py:51-52 | indexed, conflicting and repeated add up to the rows |
| `UrlIndex.CountsAre` | scripts/application_schema_registry.py:51-52 | each count is what it is named for: URLs exported, URLs left out, rows beyond the first of each URL |
| `UrlIndex.OrderDoesNotMatter` | scripts/application_schema_registry.py:31-52 | index and counts are the same for any order of the rows |
| `UrlIndex.RefusedExactly` | scripts/application_schema_registry.py:35-38 | refused exactly if some backend name or some URL is invalid |
| `UrlIndex.ErrorExactly` | scripts/application_schema_registry.py:35-38 | the first entry not in order decides the error, its name before its URLs |
| `ReviewPages.GroupReviewByPage` | apps/web/lib/preparation.ts:122-133 | pages strictly increase with the unknown page last, and each group holds all answers of its page in form order |
| `ReviewPages.Sorted` | apps/web/lib/preparation.ts:132 | the distinct keys in page order |
| `ReviewPages.EveryAnswerOnce` | apps/web/lib/preparation.ts:122-133 | every answer appears exactly as often as it was given |
| `ReviewPages.OneGrouping` | apps/web/lib/preparation.ts:121-133 | the grouping is the only one with these properties |
| `ReviewPages.GroupsArePages` | apps/web/lib/preparation.ts:122-133 | a group's answers report just its page, counted from 1; those of the unknown page report none |
| `ReviewPages.SummaryCountsGroups` | apps/web/lib/preparation.ts:135-141 | the number of distinct pages is the number of groups |
| `ReviewPages.SummaryMatchesGroups` | apps/web/lib/preparation.ts:135-141 | the summary's page count and total agree with the groups shown |

## Left out

- HTML, CSS and string rendering, HTTP sockets, cookies and headers, the job catalogue and its widgets other than the phone inputs: markup and transport without a deep invariant.
- Library behaviour (JSON, SHA-256, UTF-8, header parameters, regular expressions on white space outside ASCII, Unicode digits and case, dates, SQLite, the DOM) is a parameter or an assumed atomic step; no injectivity of a hash is used.
- What records say besides the fields modelled here (job titles, references, the messages of a rejection, the content type and location of an upload, undeclared form fields), timestamps of records, `reset`, `add_consent`, `wd_note` and the summaries of the store: they save like the operations that are modelled.
- Identifiers are numbers; their zero-padded spelling is injective and not modelled. A captcha token that was never issued is any other number.
- Files are written whole or torn; torn appends to a ledger file, and a disk that reorders writes, are not modelled.
- Queue.DurableQueue.ClaimNext: lane limits, budgets, priorities and age are not stated: which eligible row a claim takes is a parameter, so the results hold for every choice. The lane-violation half of the kill test's pass predicate, and enqueueing, are therefore left out.
- MultipartRoundTrip.RoundTrip: the encoded header lines are nonempty, hold no carriage return and do not begin with a hyphen; folded headers and a preamble are not encoded.
- RevealTheorems.PagesAgreeExactly: no reveal delay, no page rendered with its follow-ups already mounted, no group required after a follow-up, no question that a box takes away (`disabled_by`), and no follow-ups of controls other than radio groups, checkbox groups and selects. A change of a checkbox group may leave any of its boxes checked. Radio and checkbox groups drawn with ARIA roles, for which the page renders neither follow-ups nor marks (`scripts/mock_ats.py:5784-5785`), are left out. DOM ids are taken to be distinct.
- DISABLE_JS, FABRIC_JS and the other page scripts, and choosing a country from the phone widget's list.
- At-most-one application per draft is not claimed: submitting a draft twice records it twice.
- The pasted-resume exception of the one job that checks it (`scripts/mock_ats.py:6691-6693`), and how the captcha step, the identity checks, the honeypot and the widget captchas find their errors: those errors are parameters of the handlers.
- The wizard's exact email, phone and date patterns, which are parameters, and the fields its application records. Accounts are independent; a document is never signed out.
- Company names are their normalised, alias-resolved keys, and the guard serves one profile. A fill is taken to submit by nothing but the tracked submit click.
- The receipt check of a finish is one truth value; an edit never takes a card out of the applied lane.
- Poll and action results of the desk, its preview scenarios and its form state: only restores are guarded by the generation counter.
- Choosing the matching email and normalising Gmail messages: the code they yield is a parameter of a fill.
- URL normalisation is a parameter of the export, and the written index file is its value. `read_map` and the publishing commands are not modelled.
- Provider, Gmail, LiveKit and Supabase scripts, process launching, the gateway and the benchmark's capacity tables.
