# Subtrack subscription core in Dafny

Subtrack tracks a user's recurring subscriptions. This project models its
service layer and proves properties of the model:

- the email inference pipeline that turns already decoded billing emails into
  subscriptions: the `clean_text` normaliser, the `KNOWN_SERVICES` catalog
  matcher, the amount and billing-date extractors, the dedupe of
  `parse_subscription_emails` and the materializer
  `create_subscriptions_from_emails`;
- the billing-cycle date engine `update_next_billing_date`, the monthly
  equivalent of an amount, subscription creation, partial update and the
  due-soon window;
- payment records, and the rule that a payment becoming `"paid"` advances its
  subscription's next billing date once;
- notifications: creation, partial update, the READ and SENT marks, single
  reminders and the reminder generator with its duplicate suppression;
- the monthly and yearly reports (which subscriptions are billed in a month,
  grouping by category) and the month-by-month trend;
- the field constraints and defaults of the subscription schemas.

The database session is a `Store.Db` object. It holds one `seq` per table in
insertion order and one auto-increment counter per table. Service functions
that commit changes are methods that modify it. Each such method is specified
by a function on the old tables, such as `Billing.AdvanceInTable`,
`Inference.Materialized` or `Notifications.Generated`. The properties are
proved as lemmas about those functions.

The read-only searches (`extract_amount`, `extract_service_info`,
`extract_billing_date`, the report loops) are methods with loops. Each is
proved equal to a recursive reference function. The regular expressions are
fixed shapes and are written as explicit matchers. `re.finditer` is the
leftmost scan that resumes at the end of each match.

The wall clock is a parameter: `today`, `now`, and `stamp` for the formatted
date the materializer writes into its notes.

Files, one module each:

- `common.dfy`: `Option`, `Result`, `OrElse` and the error kinds.
- `dates.dfy`: the Gregorian calendar and `timedelta` steps.
- `text.dfy`: `clean_text` and the string helpers.
- `amounts.dfy`: `extract_amount`.
- `services.dfy`: the catalog and `extract_service_info`.
- `billingdates.dfy`: `extract_billing_date`.
- `schemas.dfy`: `schemas/subscription.py`.
- `records.dfy`: the ORM rows, plus the enums of `db/models.py`.
- `store.dfy`: the session and the `get_*_by_id` lookups.
- `billing.dfy`: `subscription_service.py`.
- `payments.dfy`: `payment_service.py`.
- `notifications.dfy`: `notification_service.py`.
- `reports.dfy`: `reporting_service.py`.
- `inference.dfy`: detection, dedupe and the materializer.

Where the repository's own description and the code disagree, the model
follows the code:

- `"rp 54.000"` gives 54.0, not 54000. The capture keeps its dot, and
  `float` reads the dot as a decimal point.
- `"15 Januari 2024"` gives no date. The Indonesian pattern captures the
  day first, and the code looks up that digit group as a month name.
- February is never recognised. The month table's English half spells it
  `februari`.
- The materializer advances an old billing date once, not until it is on or
  after today. It fails (and skips the email) on 31 January monthly and on
  29 February annual.
- `update_next_billing_date` adds a year to 29 February by
  `date(y + 1, 2, 29)`, which raises, instead of clamping.

## Model

Five reference functions have no contract of their own. Each is the definition that a loop is proved equal to, and the lemmas listed in the table state its properties:
- `Text.CleanText` (`clean_text`, backend/app/services/email_parser_service.py): specified by `Text.CleanTextNormalised`, `Text.CleanTextIdempotent` and `Text.CleanTextFixed`.
- `Amounts.AmountIn` (`extract_amount`, which `extract_service_info` calls): specified by `Amounts.AmountInFirst`, `Amounts.AmountInNone` and `Services.FirstPatternWins`. `Amounts.ExtractAmount` is proved equal to it.
- `BillingDates.BillingDateOf` (`extract_billing_date`): specified by `BillingDates.OnlyEnglishNamesYield`, `BillingDates.BillingDateShape` and `BillingDates.NoEnglishNameNoDate`. `BillingDates.ExtractBillingDate` is proved equal to it.
- `Inference.Materialized` (the creation loop of `create_subscriptions_from_emails`): specified by `Inference.MaterializedGrows`, `Inference.MaterializedValid` and `Inference.NoDuplicateCreation`. `Inference.CreateSubscriptionsFromEmails` is proved equal to it.
- `Notifications.Generated` (`generate_subscription_reminders`): specified by `Notifications.GeneratedReminders` and `Notifications.GenerateTwiceIdle`. `Notifications.GenerateSubscriptionReminders` ends in the state it gives.

| member | source | states |
|---|---|---|
| Text.CleanTextNormalised | backend/app/services/email_parser_service.py:105-115 | The empty text gives `""`. Any other cleaned text is lower-case, starts and ends with a non-space, and holds whitespace only as single `' '` characters between words. |
| Text.CleanTextIdempotent | backend/app/services/email_parser_service.py:105-115 | Cleaning twice gives the same text as cleaning once. |
| Text.CleanTextFixed | backend/app/services/email_parser_service.py:105-115 | Cleaning leaves an already normalised text unchanged. |
| Text.Lower | backend/app/services/email_parser_service.py:110 | `lower()` keeps the length and maps each character to its lower case. |
| Text.CollapseSpacesShape | backend/app/services/email_parser_service.py:112 | `re.sub(r'\s+', ' ', ·)` on lower-case text leaves no two adjacent whitespace characters and only `' '` as whitespace. The result is empty exactly when the input is, and starts with a space exactly when the input starts with whitespace. |
| Text.CollapseSpaces | backend/app/services/email_parser_service.py:112 | Collapsing never lengthens a text. |
| Text.CollapseSpacesFixed | backend/app/services/email_parser_service.py:112 | Collapsing a text that has no runs of whitespace changes nothing. |
| Text.ReplaceChar | backend/app/services/email_parser_service.py:114 | `replace(a, b)` puts `b` exactly where `a` was and keeps every other character. |
| Text.StripLeft | backend/app/services/email_parser_service.py:115 | The leading strip drops a prefix made only of whitespace, and leaves a text that is empty or starts with a non-space. |
| Text.StripRight | backend/app/services/email_parser_service.py:115 | The trailing strip drops a suffix made only of whitespace, and leaves a text that is empty or ends with a non-space. |
| Text.ContainsAt | backend/app/services/email_parser_service.py:219-222 | Python's `pattern in text` holds exactly when the pattern occurs at some position of the text. |
| Text.ParseInt | backend/app/services/email_parser_service.py:270-277 | `int(group)` of a captured group succeeds exactly on a non-empty digit string, and its value is below 10 to the group's length. |
| Text.Title | backend/app/services/email_parser_service.py:415 | `title()` keeps the length, upper-cases each character at the start or after a non-letter, and lower-cases each character after a letter. |
| Text.TitleAfter | backend/app/services/email_parser_service.py:415 | Title-casing from a position keeps the length and each character's lower-case form. A character is lower-cased exactly when its predecessor is a letter, the first one by the flag, and upper-cased otherwise. |
| Text.TitleLower | backend/app/services/email_parser_service.py:432 | The dedupe key `name.title().lower()` equals `name.lower()`. |
| Amounts.MatchAt | backend/app/services/email_parser_service.py:26-30 | A pattern matched at a position captures a non-empty run of `0-9 , .` characters that lies after that position. |
| Amounts.CapturesShape | backend/app/services/email_parser_service.py:192-196 | Every capture `re.finditer` reports is a non-empty run of amount characters. |
| Amounts.Normalize | backend/app/services/email_parser_service.py:198-200 | Cleaning a capture leaves only digits and dots. |
| Amounts.NormalizeKeepsDigitsAndDots | backend/app/services/email_parser_service.py:198-200 | Cleaning a capture keeps its number of dots, and keeps whether it has a digit. |
| Amounts.ParseDecimalIff | backend/app/services/email_parser_service.py:202 | `float` of a digits-and-dots string succeeds exactly when it has a digit and at most one dot. |
| Amounts.DecimalPoint | backend/app/services/email_parser_service.py:198-202 | `w.f` with digit strings `w` (non-empty) and `f` parses as `w` plus `f` read as a decimal fraction. |
| Amounts.DecimalParts | backend/app/services/email_parser_service.py:202 | A string with one dot, after at least one digit, parses as its whole part plus its fraction part. |
| Amounts.FirstParse | backend/app/services/email_parser_service.py:193-204 | The first capture that parses gives a non-negative amount. |
| Amounts.NormalizeDropsCommas | backend/app/services/email_parser_service.py:200 | Cleaning `"1,500,000"` drops its commas. |
| Amounts.SevenDigits | backend/app/services/email_parser_service.py:202 | `"1500000"` has no dot and reads as 1500000. |
| Amounts.ParseAmountIff | backend/app/services/email_parser_service.py:196-202 | A capture parses exactly when it holds at least one digit and at most one dot; commas are ignored. |
| Amounts.ParseAmount | backend/app/services/email_parser_service.py:196-202 | A parsed amount is never negative. |
| Amounts.FirstParseSpec | backend/app/services/email_parser_service.py:193-204 | The captures of one pattern yield the amount of the first capture that parses (every earlier capture fails to parse), and nothing exactly when none parses. |
| Amounts.AmountInFirst | backend/app/services/email_parser_service.py:191-206 | A found amount comes from some pattern in the list, and every earlier pattern yields nothing. |
| Amounts.AmountInNone | backend/app/services/email_parser_service.py:191-206 | `None` is returned exactly when no pattern has a capture that parses. |
| Amounts.ExtractAmount | backend/app/services/email_parser_service.py:189-206 | The nested loop with its early return computes the reference search `AmountIn`. |
| Amounts.ThousandsSeparators | backend/app/services/email_parser_service.py:198-202 | `"1,500,000"` parses as 1500000. |
| Amounts.DotIsDecimalPoint | backend/app/services/email_parser_service.py:198-202 | `"54.000"` parses as 54, not 54000. |
| Amounts.TwoDotsRejected | backend/app/services/email_parser_service.py:202-204 | A digits-and-dots capture with two dots does not parse. |
| Amounts.TwoDotsSkipped | backend/app/services/email_parser_service.py:202-204 | `"54.000.000"` does not parse, so it is skipped. |
| Amounts.RupiahWithDot | backend/app/services/email_parser_service.py:27 | The first rupiah pattern finds 54.0 in `"rp 54.000"`. |
| Amounts.RupiahWithCommas | backend/app/services/email_parser_service.py:27 | The first rupiah pattern finds 1500000 in `"rp 1,500,000"`. |
| Services.FirstHit | backend/app/services/email_parser_service.py:217-224 | The catalog index found is hit by the sender or subject, and no earlier entry is. `None` means no entry is hit. |
| Services.ServiceInfoSpec | backend/app/services/email_parser_service.py:208-236 | With no entry hit the triple is `(None, None, None)`. Otherwise it names the first entry hit, in catalog order. The entry's category comes with it, and its amount is taken from the subject, or from the body only when the subject yields none. |
| Services.InfoInName | backend/app/services/email_parser_service.py:224-233 | The service named is the first entry hit, and none is named when nothing is hit. |
| Services.SearchCatalog | backend/app/services/email_parser_service.py:217-236 | The catalog loop with its early return computes the reference triple `InfoIn`. |
| Services.ExtractServiceInfo | backend/app/services/email_parser_service.py:208-236 | `extract_service_info` cleans its three inputs and searches the catalog, which `ServiceInfoSpec` characterises. |
| Services.NamecheapIsNeverHosting | backend/app/services/email_parser_service.py:63-74 | A sender containing `@namecheap.com` is always recognised, and never as `hosting`. |
| Services.RupiahExtractsDotAsDecimal | backend/app/services/email_parser_service.py:189-206 | `extract_amount` with the rupiah patterns reads `"rp 54.000"` as 54, not 54000. |
| Services.RupiahExtractsThousands | backend/app/services/email_parser_service.py:189-206 | `extract_amount` with the rupiah patterns reads `"rp 1,500,000"` as 1500000. |
| Services.FirstPatternWins | backend/app/services/email_parser_service.py:191-206 | When the first pattern finds an amount, the extractor returns it whatever patterns follow. |
| Services.NamecheapHitsDomain | backend/app/services/email_parser_service.py:64 | A namecheap sender hits one of the first five entries, since `domain` lists it. |
| Services.EarlyNames | backend/app/services/email_parser_service.py:23-63 | None of the first five catalog entries is `hosting`. |
| Services.RecognisedWithoutAmount | backend/app/services/email_parser_service.py:227-233 | A recognised email can come back with no amount: a netflix sender with empty subject and body gives `("netflix", 1, None)`. |
| BillingDates.MonthNumber | backend/app/services/email_parser_service.py:252-257 | The month table knows a name exactly when it is a key, and maps it into 1..12. |
| BillingDates.MonthKeys | backend/app/services/email_parser_service.py:252-257 | Every key starts with a letter, and the only key for month 2 is `februari`. |
| BillingDates.NameWord | backend/app/services/email_parser_service.py:247-249 | A captured month name is a word of letters, and no English alternative is `februari`. |
| BillingDates.ShortNumber | backend/app/services/email_parser_service.py:243-249 | `\d{1,2}` matches one or two digits that are not followed by a further digit. It fails exactly when the run of digits is empty or longer than two. |
| BillingDates.TrailingShortNumber | backend/app/services/email_parser_service.py:245 | A final `\d{1,2}` takes one or two digits, and fails exactly when no digit follows. |
| BillingDates.FourDigits | backend/app/services/email_parser_service.py:243-249 | `\d{4}` matches exactly when four digits follow. |
| BillingDates.DayFirstAt | backend/app/services/email_parser_service.py:243 | A DD-MM-YYYY match captures two short digit groups and then a four-digit group. |
| BillingDates.YearFirstAt | backend/app/services/email_parser_service.py:245 | A YYYY-MM-DD match captures a four-digit group and then two short digit groups. |
| BillingDates.EnglishAt | backend/app/services/email_parser_service.py:247 | An English match captures a month name, a short day and a four-digit year. It cannot match without an English month name at that position. |
| BillingDates.IndonesianAt | backend/app/services/email_parser_service.py:249 | An Indonesian match captures a short day, then an Indonesian month name, then a four-digit year. |
| BillingDates.DateMatchAt | backend/app/services/email_parser_service.py:241-250 | Each pattern's match advances past its start, and its groups have the pattern's shape. |
| BillingDates.DateCapturesShaped | backend/app/services/email_parser_service.py:262-264 | Every match `re.finditer` reports for a pattern has that pattern's shape. |
| BillingDates.Checked | backend/app/services/email_parser_service.py:292-296 | The range check with `datetime(...)` succeeds exactly for a real calendar date whose day is 1..31 and year is 1900..2100. An impossible date such as 31 June gives nothing. |
| BillingDates.FirstValid | backend/app/services/email_parser_service.py:264-296 | The result is the date of a match before which no match gives a date, so the first match that gives a date wins. There is no date exactly when no match gives one. |
| BillingDates.ExtractBillingDate | backend/app/services/email_parser_service.py:238-299 | The pattern and match loops with their early return compute the reference `BillingDateOf`. |
| BillingDates.NumericNeverValid | backend/app/services/email_parser_service.py:267-277 | The DD-MM-YYYY and YYYY-MM-DD families never give a date: the four-digit group lands in the day slot or a short group in the year slot. |
| BillingDates.IndonesianNeverValid | backend/app/services/email_parser_service.py:278-290 | The DD Month YYYY family never gives a date: its first group is digits, which is no month name. |
| BillingDates.OtherPatternsNeverYield | backend/app/services/email_parser_service.py:262-299 | Every pattern but the English one finds no date in any text. |
| BillingDates.OnlyEnglishNamesYield | backend/app/services/email_parser_service.py:238-299 | `extract_billing_date` is the English pattern's search on the cleaned text. |
| BillingDates.EnglishInterpret | backend/app/services/email_parser_service.py:279-296 | An English match gives the range-checked date of its year, table month and day. A month the table lacks gives nothing. Any date it gives is real, in 1900..2100, and never in February. |
| BillingDates.EnglishPatternDate | backend/app/services/email_parser_service.py:262-296 | Any date the English pattern finds is real, lies in 1900..2100 and is not in February. |
| BillingDates.BillingDateShape | backend/app/services/email_parser_service.py:293-294 | Every date `extract_billing_date` returns is a real date with year in 1900..2100, and never in February. |
| BillingDates.NameAt | backend/app/services/email_parser_service.py:247-249 | A month-name alternative that matches spans a listed name up to case. None matches exactly when no listed name occurs at the position. |
| BillingDates.EnglishNeedsName | backend/app/services/email_parser_service.py:247 | Without an English month name at a position, the English pattern does not match there. |
| BillingDates.NoEnglishNameNoDate | backend/app/services/email_parser_service.py:247 | A text with no English month name gives no date. |
| BillingDates.EnglishDateExample | backend/app/services/email_parser_service.py:247 | `"january 15, 2024"` gives 15 January 2024. |
| BillingDates.IndonesianDateExample | backend/app/services/email_parser_service.py:249 | `"15 januari 2024"` gives no date. |
| Inference.CandidateSpec | backend/app/services/email_parser_service.py:397-424 | An email gives a candidate exactly when the matcher names a service and a non-zero amount. The candidate then has a positive amount, the service's name title-cased (so equal to it up to letter case), and its category. Its billing date is the one in the body, or else exactly 30 days after the received date. It keeps the email's sender and subject. |
| Inference.DetectedPositive | backend/app/services/email_parser_service.py:406 | Every detected candidate has a positive amount: `None` and 0.0 are dropped before the dedupe. |
| Inference.DetectedDates | backend/app/services/email_parser_service.py:407-411 | Every detected candidate carries a real billing date. |
| Inference.Detected | backend/app/services/email_parser_service.py:397-427 | At most one candidate per email. |
| Inference.DetectOne | backend/app/services/email_parser_service.py:399-424 | The body of the loop for one email computes `CandidateOf`: by `CandidateSpec`, a title-cased candidate with the body's date, or else the date 30 days after arrival, exactly when a service and a non-zero amount are recognised. |
| Inference.DetectSubscriptions | backend/app/services/email_parser_service.py:397-427 | The detection loop computes the reference list `Detected` of candidates, in email order. |
| Inference.Deduped | backend/app/services/email_parser_service.py:430-436 | The dedupe dict's key list and table agree: every listed key is filed. |
| Inference.FirstWithKey | backend/app/services/email_parser_service.py:431-432 | The first candidate with a given lower-cased name, and none when no candidate has it. |
| Inference.Insert | backend/app/services/email_parser_service.py:431-434 | One dedupe step keeps every listed key filed, and files the candidate's key. |
| Inference.DedupedKeys | backend/app/services/email_parser_service.py:430-436 | The dict's keys are exactly the listed keys. |
| Inference.DedupedDistinct | backend/app/services/email_parser_service.py:430-436 | No name is listed twice: one entry per lower-cased name. |
| Inference.DedupedFiled | backend/app/services/email_parser_service.py:430-436 | Each entry is filed under its own lower-cased name. |
| Inference.DedupedMax | backend/app/services/email_parser_service.py:433-434 | Every candidate's name is kept, and its entry's amount is at least the candidate's: the entry carries the maximum. |
| Inference.DedupedEarliest | backend/app/services/email_parser_service.py:433-434 | Each entry is a candidate whose amount beats every earlier candidate of its name, so on equal amounts the earliest is kept. |
| Inference.DedupedOrder | backend/app/services/email_parser_service.py:430-436 | Every listed name occurs among the candidates, and the names come in the order of their first appearance. |
| Inference.Dedupe | backend/app/services/email_parser_service.py:430-436 | The loop over the dict, updated in place, returns the values of the reference dedupe `Deduped` in insertion order. |
| Inference.ParseSubscriptionEmails | backend/app/services/email_parser_service.py:382-436 | Detection followed by the dedupe. |
| Inference.CycleFor | backend/app/services/email_parser_service.py:461-464 | The cycle is annual exactly when the amount exceeds 1000000, and monthly otherwise. |
| Inference.AdvancedOnceSpec | backend/app/services/email_parser_service.py:466-480 | A date on or after today is kept. An earlier one moves once: monthly to the same day of the next month, failing exactly when that month is too short, and annual to the same day a year on, failing exactly on 29 February before a non-leap year. |
| Inference.AdvanceMayStayInPast | backend/app/services/email_parser_service.py:469-477 | The date is advanced once only, so the stored date can still lie before today. |
| Inference.AdvanceRaises | backend/app/services/email_parser_service.py:472-480 | 31 January monthly and 29 February annual cannot be advanced. |
| Inference.PreparedSpec | backend/app/services/email_parser_service.py:449-498 | A candidate is prepared exactly when no existing name contains it, its date adjusts and its amount is positive. The prepared create has the inferred cycle, the adjusted date, that date's day as billing day, and IDR, auto-renew, 3 reminder days, active and the fixed description and notes. |
| Inference.TakenNameSkipped | backend/app/services/email_parser_service.py:452-459 | A candidate whose name some existing row of the user contains, ignoring case, leaves the state unchanged. |
| Inference.ForeignCategorySkipped | backend/app/services/email_parser_service.py:500-517 | A candidate whose category is not the user's is caught and skipped, and the rest go on. |
| Inference.MaterializedGrows | backend/app/services/email_parser_service.py:447-519 | The table only grows by the created rows, at most one per candidate, numbered on from the counter and owned by the user. |
| Inference.MaterializedValid | backend/app/services/email_parser_service.py:482-501 | Every created row satisfies the subscription schema and has a category the user owns, or none. |
| Inference.NoDuplicateCreation | backend/app/services/email_parser_service.py:452-459 | No created row's name contains a later created row's name, ignoring case. |
| Inference.CreateSubscriptionsFromEmails | backend/app/services/email_parser_service.py:438-519 | The loop leaves the session in the state `Materialized` describes and returns its created rows. It changes no other table. |
| Inference.CreateSubscriptionsFromEmailData | backend/app/services/email_parser_service.py:438-444 | Materializes the deduplicated detections of the emails. The categories, payments, notifications and their counters are unchanged. |
| Dates.DaysInMonth | backend/app/services/reporting_service.py:26 | A month has 28 to 31 days, fewer than 30 only for February, which has 29 exactly in a leap year. |
| Dates.MakeDate | backend/app/services/email_parser_service.py:294 | `date(y, m, d)` succeeds exactly for a month 1..12 and a day that month has. |
| Dates.NextDay | backend/app/services/subscription_service.py:323 | The day after a real date is a later real date. |
| Dates.PrevDay | backend/app/services/subscription_service.py:323 | The day before a real date is an earlier real date. |
| Dates.NextPrevInverse | backend/app/services/subscription_service.py:323 | One day forward and one day back cancel, in either order. |
| Dates.AddDays | backend/app/services/subscription_service.py:323 | `d + timedelta(days=n)` is a real date, later for positive `n` and earlier for negative `n`. |
| Dates.AddDaysCompose | backend/app/services/subscription_service.py:323 | Adding `a` days and then `b` days is adding `a + b` days. |
| Dates.AddDaysWithinMonth | backend/app/services/subscription_service.py:323 | Adding days that stay within the month only raises the day. |
| Dates.LastDayByOverflowIsLastDay | backend/app/services/subscription_service.py:283-284 | `date(y, m, 1) + 32 days`, set to day 1, minus one day is always the last day of month `m`. |
| Dates.DayEarlier | backend/app/services/notification_service.py:247 | `now - timedelta(days=1)` is a real moment before `now`. |
| Dates.DayEarlierBeforeMidnight | backend/app/services/notification_service.py:247 | `now - 1 day` lies before midnight of any day on or after today. |
| Dates.MonthOfIndex | backend/app/services/reporting_service.py:321-324 | A running month number maps back to a year and a month 1..12. |
| Store.FindSubscription | backend/app/services/subscription_service.py:10-17 | The row found has the id and belongs to the user. `None` means no such row. |
| Store.FindCategory | backend/app/services/subscription_service.py:64-67 | The category found has the id and belongs to the user. `None` means no such category. |
| Store.FindCategoryById | backend/app/services/reporting_service.py:79-82 | The category found has the id. `None` means no category has it. |
| Store.FindPayment | backend/app/services/payment_service.py:10-14 | The payment found has the id. `None` means no such payment. |
| Store.FindNotification | backend/app/services/notification_service.py:92-94 | The notification found has the id. `None` means no such notification. |
| Schemas.ValidateCreate | backend/app/schemas/subscription.py:13-28 | A create is accepted exactly when amount > 0 and 1 ≤ billing_day ≤ 31, else a validation error. Missing fields default to IDR, monthly, today, auto-renew, 3 reminder days and active. |
| Schemas.ValidateUpdate | backend/app/schemas/subscription.py:33-48 | An update is accepted unchanged exactly when a present amount is > 0 and a present billing day is in 1..31. |
| Schemas.EmptyUpdateValid | backend/app/schemas/subscription.py:33-48 | Every update field is optional: the empty update is accepted. |
| Records.SubscriptionFromCreate | backend/app/services/subscription_service.py:76-79 | A row built from a create that meets the field constraints satisfies the subscription schema. |
| Billing.CycleMonths | backend/app/services/subscription_service.py:146-157 | The fixed cycles last 1, 3, 6 or 12 months. |
| Billing.MonthlyAmount | backend/app/services/subscription_service.py:146-160 | The monthly equivalent times the cycle's months (30 for custom) gives back the amount. A positive amount has a positive equivalent no larger than itself. |
| Billing.AdvanceMonthsSpec | backend/app/services/subscription_service.py:269-316 | Adding `k` months gives month `((m-1+k) mod 12)+1`, with the year raised on wrap. The day is clamped to that month's last day, and the result is a real date exactly `k` months on. |
| Billing.NextBillingDate | backend/app/services/subscription_service.py:267-323 | The next date is a real date strictly after the stored one. It fails (invalid date) exactly for an annual cycle on 29 February. |
| Billing.MonthStepResult | backend/app/services/subscription_service.py:269-316 | Monthly, quarterly and semiannual give the target month's date with the day kept, or clamped to the last day: 31 January monthly becomes 29 February 2024. |
| Billing.AnnualStepResult | backend/app/services/subscription_service.py:318-320 | Annual keeps month and day in the next year; 29 February raises instead of clamping. |
| Billing.AddDaysBack | backend/app/services/subscription_service.py:323 | Going `n` days forward and then `n` days back returns the same date. |
| Billing.CustomStepResult | backend/app/services/subscription_service.py:322-323 | Custom adds exactly 30 days: going back 30 days returns the stored date. |
| Billing.MonthlyClampExample | backend/app/services/subscription_service.py:278-284 | 2024-01-31 monthly becomes 2024-02-29. |
| Billing.Advanced | backend/app/services/subscription_service.py:267-326 | Advancing changes only the next billing date and moves it strictly later. It fails exactly when the date engine fails on the stored cycle and date. |
| Billing.AdvanceInTable | backend/app/services/subscription_service.py:258-326 | An unknown or foreign subscription gives not-found. Otherwise only that row is replaced, by its advanced self, and the table still satisfies the schema. |
| Billing.UpdateNextBillingDate | backend/app/services/subscription_service.py:250-330 | The session ends as `AdvanceInTable` says. An error leaves the table unchanged, and no other table changes. |
| Billing.CreateInTable | backend/app/services/subscription_service.py:58-86 | A create succeeds exactly when its category is absent or 0 or the user's, and then appends the row built from it. Otherwise it is not-found. |
| Billing.CreateSubscription | backend/app/services/subscription_service.py:58-86 | Given a session whose rows satisfy the schema and a create that passed validation, the session ends as `CreateInTable` says and its rows still satisfy the schema. The counter rises only on success. |
| Billing.ApplyUpdate | backend/app/services/subscription_service.py:119-122 | Each set field of the update replaces the stored one, and unset fields and the identity are kept. |
| Billing.ApplyUpdateLaws | backend/app/services/subscription_service.py:119-122 | The empty update changes nothing, and applying an update twice is applying it once. |
| Billing.ApplyUpdateKeepsValid | backend/app/services/subscription_service.py:119-122 | An update that passed its schema keeps a valid row valid. |
| Billing.UpdateInTable | backend/app/services/subscription_service.py:97-122 | An unknown subscription gives not-found. So does a category > 0 that is not the user's; a category of 0 skips the check. Otherwise only that row changes, to its updated self. |
| Billing.UpdateSubscription | backend/app/services/subscription_service.py:88-128 | The session ends as `UpdateInTable` says. An error changes nothing. |
| Billing.Filter | backend/app/services/subscription_service.py:245-248 | The filter keeps exactly the active subscriptions whose next billing date lies in the window. |
| Billing.DueSoon | backend/app/services/subscription_service.py:234-248 | Exactly the active subscriptions with `today ≤ next_billing_date ≤ today + days_ahead` are due. |
| Payments.ValidatePaymentCreate | backend/app/schemas/payment.py:8 | A payment create is accepted exactly when its amount is positive. |
| Payments.AdvanceRuleCases | backend/app/services/payment_service.py:141-142 | An update advances only on a change from non-`"paid"` to `"paid"`: never paid to paid, never to another status. |
| Payments.PaymentFromCreate | backend/app/services/payment_service.py:93-95 | The stored payment has the new id and every field of the create: subscription, date, amount, status, method, receipt and notes. |
| Payments.ApplyPaymentUpdate | backend/app/services/payment_service.py:132-134 | Each field present in the update replaces the stored one, each absent field is kept, and so are the id and the subscription. |
| Payments.UpdateWithoutStatusNeverAdvances | backend/app/services/payment_service.py:129-142 | An update that does not set the status never advances the subscription. |
| Payments.CreatePayment | backend/app/services/payment_service.py:80-106 | An unknown or foreign subscription gives not-found and changes nothing. Otherwise the payment is appended, and the subscription is advanced once exactly when the status is `"paid"`. |
| Payments.UpdatePayment | backend/app/services/payment_service.py:108-144 | A missing payment or a foreign subscription gives not-found before any change. Otherwise only the payment's set fields change, and the subscription advances once exactly on a change to `"paid"`. |
| Payments.DeletePayment | backend/app/services/payment_service.py:146-168 | The payment is removed after the same two checks, and the subscriptions are never touched, so no billing date is reverted. |
| Payments.OrDefault | backend/app/services/payment_service.py:199 | `value or default` keeps a non-empty value and falls back on `None` or `""`. |
| Payments.RecordRequest | backend/app/services/payment_service.py:189-201 | The recorded payment copies the subscription's amount and is `"paid"`. The date defaults to today and the method to `"Manual Entry"`. It fails only for a non-positive amount. |
| Payments.RecordAlwaysAdvances | backend/app/services/payment_service.py:194-203 | For a valid subscription the payment is always accepted and always triggers the advance. |
| Payments.RecordPaymentForSubscription | backend/app/services/payment_service.py:170-203 | An unknown subscription gives not-found and changes nothing. Otherwise the payment built from the request, with the subscription's amount, is appended under the next id, and the subscription is advanced once. The subscription and notification counters never change. |
| Notifications.NotificationFromCreate | backend/app/services/notification_service.py:70-74 | A new notification has the requested subscription, type, subject, status and schedule, the owner, and neither `sent_at` nor `read_at`. |
| Notifications.CreateNotification | backend/app/services/notification_service.py:49-81 | A truthy subscription id that is not the user's gives not-found and changes nothing. Otherwise the row is appended. |
| Notifications.ApplyNotificationUpdate | backend/app/services/notification_service.py:102-105 | Only the set fields change. |
| Notifications.ApplyNotificationUpdateLaws | backend/app/services/notification_service.py:102-105 | The empty update changes nothing, and updating twice is updating once. |
| Notifications.UpdateNotification | backend/app/services/notification_service.py:83-111 | An unknown id gives not-found. Otherwise only that row changes, to its updated self. |
| Notifications.MarkedRead | backend/app/services/notification_service.py:147-149 | Marking read sets READ and `read_at`, and nothing else changes. |
| Notifications.MarkedSent | backend/app/services/notification_service.py:172-174 | Marking sent sets SENT and `sent_at`, and nothing else changes. |
| Notifications.MarkTransitions | backend/app/services/notification_service.py:132-180 | Neither mark checks the prior status: read after sent and sent after read both succeed, and each keeps the other's timestamp. |
| Notifications.MarkAsRead | backend/app/services/notification_service.py:132-155 | An unknown id gives not-found. Otherwise only that row is marked read. |
| Notifications.MarkAsSent | backend/app/services/notification_service.py:157-180 | An unknown id gives not-found. Otherwise only that row is marked sent. |
| Notifications.ReminderRequest | backend/app/services/notification_service.py:190-209 | A reminder is a pending email about the subscription. It is scheduled at midnight `days_before` days ahead of the billing date, and so before it when that is positive. |
| Notifications.CreateSubscriptionReminder | backend/app/services/notification_service.py:182-211 | Exactly that reminder is appended, under the next id. |
| Notifications.ReminderDays | backend/app/services/notification_service.py:236 | A subscription's `reminder_days` of 0 or `None` falls back to the default. |
| Notifications.FindRecentReminder | backend/app/services/notification_service.py:244-248 | The duplicate query finds a pending or sent notification about the subscription scheduled after `now - 1 day`, and fails exactly when there is none. |
| Notifications.RunAppends | backend/app/services/notification_service.py:233-256 | The loop only appends. Every reminder it creates is a pending email scheduled at midnight of a day no earlier than today, about one of the due subscriptions. |
| Notifications.StepCovers | backend/app/services/notification_service.py:234-255 | After a subscription's turn, unless its reminder date has passed, a suppressing reminder for it exists. |
| Notifications.RecentPersists | backend/app/services/notification_service.py:243-251 | A suppressing reminder stays found when rows are appended. |
| Notifications.RunCovers | backend/app/services/notification_service.py:233-256 | After the loop, every due subscription whose reminder date has not passed has a suppressing reminder. |
| Notifications.RunIdle | backend/app/services/notification_service.py:238-251 | The loop changes nothing when every due subscription is past its reminder date or already has a suppressing reminder. |
| Notifications.GeneratedReminders | backend/app/services/notification_service.py:213-257 | The generator appends exactly the reminders it returns, numbered on from the counter. Each is a good reminder on or after today, about an active subscription due within `days_ahead`. |
| Notifications.GenerateTwiceIdle | backend/app/services/notification_service.py:243-251 | A second run at the same moment creates nothing and changes nothing. |
| Notifications.GenerateSubscriptionReminders | backend/app/services/notification_service.py:213-257 | The session ends as `Generated` says, and the created reminders are returned. |
| Notifications.RemindOne | backend/app/services/notification_service.py:234-255 | One turn of the loop for one subscription follows `Step`. |
| Reports.ActiveOf | backend/app/services/reporting_service.py:15-18 | Exactly the user's active subscriptions are reported. |
| Reports.BillingDateAsWritten | backend/app/services/reporting_service.py:40-62 | As written, comparing the ORM enum member with strings never holds, so no subscription is billed in any month. |
| Reports.MonthlyBillingLost | backend/app/services/reporting_service.py:40-44 | A monthly subscription due on the 15th is billed on 15 January 2024 by the intended rule, and not at all as written. |
| Reports.ValidAreBillable | backend/app/services/reporting_service.py:15-18 | The active subscriptions of a table that satisfies the schema all have a billing day of at least 1, which the month computations need. |
| Reports.BillingDate | backend/app/services/reporting_service.py:26-66 | A monthly subscription is billed every month, on day `min(billing_day, last day)`. Quarterly, semiannual and annual are billed exactly when the next billing date lies in the month, on that date. Custom is never billed. |
| Reports.CategoryKey | backend/app/services/reporting_service.py:74-83 | A non-zero group key is the subscription's own category id, and a subscription without a category is grouped under 0. |
| Reports.KeysOfSpec | backend/app/services/reporting_service.py:84-92 | The category groups are distinct, and exactly the keys of the reported subscriptions. |
| Reports.CategoriesPartition | backend/app/services/reporting_service.py:68-97 | The per-category counts sum to the subscription count, and the per-category amounts sum to the billed total. |
| Reports.TotalsOfSpec | backend/app/services/reporting_service.py:84-97 | The `by_category` dict has an entry for exactly the keys, each that key's count, billed amount and monthly equivalent. |
| Reports.DetailsOfSpec | backend/app/services/reporting_service.py:99-114 | One detail per subscription, in order. |
| Reports.Accumulate | backend/app/services/reporting_service.py:31-114 | The loop's accumulators end as the billed total, the monthly equivalent, the category keys with their totals, and the details. |
| Reports.FirstWithId | backend/app/services/reporting_service.py:124 | `next(...)` finds the first subscription with the payment's id (no earlier one has it), and fails exactly when there is none. |
| Reports.HistoryOf | backend/app/services/reporting_service.py:116-135 | Every history entry is a payment of the month for a reported subscription. |
| Reports.HistoryComplete | backend/app/services/reporting_service.py:116-135 | Every payment of the month for a reported subscription appears in the history. |
| Reports.PaymentHistory | backend/app/services/reporting_service.py:122-135 | The history loop computes `HistoryOf`. |
| Reports.MonthlyReportOf | backend/app/services/reporting_service.py:10-149 | The report's count, billed total, monthly equivalent, categories, details and history are those of the user's active subscriptions. |
| Reports.MonthlyReportPartition | backend/app/services/reporting_service.py:84-97 | In the report, the categories' counts sum to `subscription_count` and their amounts to `total_billed_amount`. |
| Reports.SummariesSpec | backend/app/services/reporting_service.py:159-169 | The yearly report has exactly 12 monthly entries, for months 1..12 in order, each that month's billed total. |
| Reports.MonthSummaries | backend/app/services/reporting_service.py:159-169 | The 12-month loop gives those entries, and its total is the sum of the monthly billed totals. |
| Reports.MonthSummaryOf | backend/app/services/reporting_service.py:161-168 | One month's summary carries that month's billed total, the monthly equivalent and the count. |
| Reports.MonthlyBilledEveryMonth | backend/app/services/reporting_service.py:40-44 | A monthly subscription adds its amount to every month, so `n` months give `n` times the amount. |
| Reports.OtherCyclesBilledOnce | backend/app/services/reporting_service.py:47-66 | A quarterly, semiannual or annual subscription adds its amount to the year once, in the month of its next billing date. |
| Reports.AnnualIsTwelveMonths | backend/app/services/reporting_service.py:177-184 | The annual equivalents are 12 times the monthly equivalents, in total and per category. |
| Reports.AnnualTotalsOfSpec | backend/app/services/reporting_service.py:180-205 | The yearly `by_category` dict has an entry for exactly the keys, each with its count and annual amount. |
| Reports.YearlyCategories | backend/app/services/reporting_service.py:177-205 | The loop gives the annual total and the per-category counts and annual amounts. |
| Reports.YearlyReportOf | backend/app/services/reporting_service.py:151-214 | The yearly report has 12 monthly entries and the sum of their billed totals. Its annual equivalent and categories are those of the user's active subscriptions. |
| Reports.CreatedSince | backend/app/services/reporting_service.py:272-276 | The trend sees exactly the user's subscriptions created on or after the start date. |
| Reports.TrendCountsBounded | backend/app/services/reporting_service.py:288-309 | A month's active and new counts never exceed the number of subscriptions. |
| Reports.ActiveCountMonotone | backend/app/services/reporting_service.py:301-308 | With no end dates, the active count never falls from one month to a later one. |
| Reports.CountMonth | backend/app/services/reporting_service.py:284-318 | The inner loop counts as `TrendEntryOf`: active means created by the month's end and not ended by then, and new means created in that month. |
| Reports.NextMonthIndex | backend/app/services/reporting_service.py:320-324 | The next month is month + 1, or January of the next year after December. |
| Reports.TrendMonths | backend/app/services/reporting_service.py:279-324 | The month loop gives one entry per month from the start month through today's month, in order, and none when the start lies after today's month. |
| Reports.TrendReport | backend/app/services/reporting_service.py:264-329 | The trend runs from the month of `today - 30·months` through today's month, each entry that month's counts. |

## Left out

- IMAP transport and the per-user scan (`connect_to_mailbox`, `fetch_emails`, `scan_emails_for_all_users`) are network I/O. The emails are a parameter.
- MIME and RFC 2047 decoding (`get_email_body`, `decode_email_subject`) are foreign library calls. Sender, subject and body are taken as decoded strings; `\xa0` handling is kept.
- Outbound delivery (SMTP, the notification scheduler and PDF rendering) is I/O and presentation.
- The FastAPI routers, the ORM and database setup, users, mock data and configuration are plumbing. Only the enums of `db/models.py` are mirrored, as datatypes.
- The router's own monthly conversion in `api/subscriptions.py` (0 for custom) is HTTP glue. The service's conversion (amount/30) is the one modelled.
- The `get_*` listing queries (`get_subscriptions`, `get_payments_by_*`, `get_notifications_by_user`) have paging and ordering that are database plumbing. Only the by-id lookups are modelled.
- `delete_subscription`, `delete_notification`, `get_subscription_summary` and `get_payment_history_report` are not in the modelled core.
- Clock reads (`date.today()`, `datetime.now()`) are parameters. The materializer's formatted `strftime` stamp is a string parameter.
- Floating point is left out: amounts are exact reals, `float(...)` on a digit string is exact, and `round(...)` and number formatting are not modelled. A reminder's message text (with `{amount:,.0f}`) is not modelled; its subject is.
- The Python `date` range (years 1..9999) and `OverflowError` near its ends are left out: years are unbounded integers.
- Case mapping and `\d` cover ASCII only. Python's Unicode lower-casing, title-casing and Unicode digits are left out; `\s` follows Python's whitespace class.
- The `ilike` name check treats the candidate name literally; SQL wildcards `%` and `_` inside a name are not interpreted.
- The dicts the inference functions return are modelled by the rows they come from: the `detected_from_email` flag and the projection to a dict are left out.
- An update field explicitly set to `null` is not distinguished from an unset one: `Some` marks a set field.
- The reports are modelled with the intended cycle comparison; the comparison as written is recorded in the Findings table below.
- Failures other than those the code raises on purpose (a database error inside the materializer's `try`) are not modelled; the modelled exceptions are an invalid date and a foreign category.
- Amounts.ParseDecimal: its own contract states only that a result is non-negative. What strings parse, and to what value, is stated by `ParseDecimalIff`, `DecimalParts` and `DecimalPoint`.
- Inference.Detected: its own contract bounds only the length. The content is stated by `CandidateSpec`, `DetectedPositive` and `DetectedDates`.

## Findings

| source | as written | input that shows it | evidently intended | confidence | as-written member | corrected member |
|---|---|---|---|---|---|---|
| backend/app/services/reporting_service.py:40-62 | `sub.billing_cycle == "monthly"` (and `"quarterly"`, `"semiannual"`, `"annual"`) compares a member of the plain `enum.Enum` `BillingCycle` of backend/app/db/models.py:14 with a string, which is always false | a monthly subscription with billing day 15 in the report for January 2024 is not billed, so `total_billed_amount` is 0 | bill by the stored cycle, as `get_monthly_subscription_amount` does with `BillingCycle.MONTHLY` at backend/app/services/subscription_service.py:150 | medium, not executed | Reports.BillingDateAsWritten | Reports.BillingDate |
