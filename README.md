# contrib-cycle-front in Dafny

A model of the logic of the contrib-cycle-front web client (a front end for
"contribution cycle" projects whose participants pay by PIX or bank
transfer), with proofs of what that logic promises.

- `phone_br.dfy` (module `PhoneBR`): `normalizePhone`, the Brazilian phone
  normaliser behind phone login. It keeps only digits, strips the `00` and
  `0` dialling prefixes, then tries a Brazilian parse (country code 55,
  trunk `0`, carrier `0XX`, DDD 11-99, nine-digit mobile, the old eight-digit
  mobile that gains a leading `9`, fixed lines when allowed). Digits that do
  not start with 55 fall back to a loosely checked international number.
- `utils.dfy` (module `Utils`): `formatPhone`, `getIntervalLabel` and
  `getStatusLabel`.
- `create_payment_method.dfy`: the admin dialog that creates a payment
  method. It holds the form, its validation, its trimmed payload and the
  dialog's state as a class.
- `admin_project_new.dfy`: the new-project page. It holds the rule table of
  `validateForm`, the request body, the server's field errors and the page's
  state as a class.
- `new_payment_modal.dfy`: the participant's payment dialog. It holds the
  required fields per interval, the multipart request, the select options,
  the 10 MB receipt limit and the dialog's state.
- `reports_tab.dfy` and `admin_project_details.dfy`: the report request
  body, the report status badge, the generate dialog, the tab a URL selects
  and the round trip from a tab to its URL and back.
- `payment_row.dfy`: the period label and the receipt link of a payment.
- `header.dfy`, `protected_route.dfy`, `toast_provider.dfy` and
  `theme_provider.dfy`: the display name and the single open menu of the
  header, the route guard's decision, the toast list, and the colour theme.
- `js_text.dfy` (module `JsText`) and `wrappers.dfy` hold the JavaScript
  built-ins the code relies on, written out in Dafny:
  - `replace(/\D/g, "")`, `trim`, `startsWith`, `includes`, `padStart` and `join`;
  - `String(n)` for integers;
  - `parseInt` with its whitespace, sign, `0x` and longest-digit-prefix rules and its `NaN`.

`wrappers.dfy` holds the `Option` type.

Strings are sequences of characters and numbers are unbounded integers.
JavaScript truthiness of a string is "not empty" and of a nullable value
"present and not empty". A `null` or left-out key is `None`. The network's
answer, the clock, the random toast id, the chosen file and the system
colour preference become parameters.

Where the documented behaviour and the code disagree, the model follows the
code:
- The failure reasons are the code's Portuguese messages.
- `normalizePhone("8135207788")` in mobile-only mode is an international
  success, not a fixed-line failure. The BR attempt refuses the fixed line,
  and since the digits do not start with 55 the call accepts them as an
  international number. `PhoneBR.FixedLineFallsBackToIntl` proves this for
  every such number.

## Model

| member | source | states |
|---|---|---|
| PhoneBR.Resolve | src/lib/phoneBR.ts:37-46 | both options default to true; a given option overrides its default |
| PhoneBR.ValidDDDRange | src/lib/phoneBR.ts:139-140 | the DDD pattern accepts exactly the two-digit codes from 11 to 99 |
| PhoneBR.StripTrunk | src/lib/phoneBR.ts:107-124 | a leading 0 is removed; with carrier prefixes accepted and 12 or more digits, 0 plus a two-digit carrier is removed instead, only when 10 or 11 digits remain; nothing is removed without a leading 0 |
| PhoneBR.TryNormalizeBR | src/lib/phoneBR.ts:98-201 | never an INTL result; cleaned is the raw digits; every success has a valid DDD and subscriber and value 55+DDD+subscriber; "Não parece um número BR." exactly when the national part is not 10 or 11 digits long |
| PhoneBR.LocalResult | src/lib/phoneBR.ts:144-200 | nine local digits succeed only when they start with 9; eight starting 6-9 become 9+local; eight starting 2-5 are accepted only outside mobile-only mode; anything else fails with the mode's reason; every success is well formed |
| PhoneBR.LocalNumberRules | src/lib/phoneBR.ts:144-200 | a nine-digit local part succeeds only when it starts with 9; an eight-digit one starting 6-9 becomes 9+local; one starting 2-5 is accepted only outside mobile-only mode; every other local part fails with the mode's reason |
| PhoneBR.AreaCodeTenOrBelowRejected | src/lib/phoneBR.ts:136-142 | every DDD of 10 or below fails with "DDD inválido." |
| PhoneBR.TryNormalizeBROfValue | src/lib/phoneBR.ts:98-192 | 55+DDD+subscriber of a valid DDD and subscriber parses back to exactly that success |
| PhoneBR.PreparedDigits | src/lib/phoneBR.ts:48-58 | the prepared string is all digits, and empty exactly when the input has no digit or only "00" |
| PhoneBR.NormalizePhone | src/lib/phoneBR.ts:42-94 | cleaned is the prepared digits; a BR success is the BR attempt's result; an INTL value equals its cleaned digits |
| PhoneBR.EmptyInputRule | src/lib/phoneBR.ts:49-50 | the result is the "Telefone vazio." failure with nothing cleaned if and only if the input holds no digit |
| PhoneBR.BRSuccessShape | src/lib/phoneBR.ts:155-191 | every BR success is 55+DDD+subscriber, all digits, with a DDD from 11 to 99 |
| PhoneBR.CountryCodeNeverIntl | src/lib/phoneBR.ts:60-68 | prepared digits starting with 55 get the BR attempt's result, never INTL |
| PhoneBR.IntlRule | src/lib/phoneBR.ts:70-93 | INTL success if and only if the BR attempt failed, no 55 prefix, 10 to 15 digits and no leading 0 |
| PhoneBR.IntlLengthBounds | src/lib/phoneBR.ts:72-82 | outside the BR path, fewer than 10 digits give the missing-DDD failure and more than 15 give "Número muito longo." |
| PhoneBR.BRValueIsFixedPoint | src/lib/phoneBR.ts:98-192 | normalising the value of a BR success again, under the same options, gives a BR success with the same value |
| PhoneBR.PreparedDigitsOfPlainDigits | src/lib/phoneBR.ts:49-58 | digits that do not start with 0 pass preparation unchanged |
| PhoneBR.NationalNumberPrepared | src/lib/phoneBR.ts:102-137 | a DDD other than 55 followed by a local number is its own national part, split into that DDD and local number |
| PhoneBR.NationalMobileAccepted | src/lib/phoneBR.ts:145-163 | a valid DDD other than 55 with a nine-digit mobile is accepted with the country code added |
| PhoneBR.LegacyMobilePromoted | src/lib/phoneBR.ts:165-180 | an eight-digit local part starting 6-9 is accepted as 9+local |
| PhoneBR.FixedLineFallsBackToIntl | src/lib/phoneBR.ts:182-200 | in mobile-only mode a fixed line is refused by the BR attempt and accepted as an INTL number |
| PhoneBR.FixedLineAcceptedWhenNotMobileOnly | src/lib/phoneBR.ts:182-192 | outside mobile-only mode a fixed line is accepted unchanged |
| PhoneBR.AreaCode55NationalRefused | src/lib/phoneBR.ts:104-105 | as written, DDD 55 followed by a nine-digit mobile is refused as not Brazilian |
| PhoneBR.NationalNumberDigits | src/lib/phoneBR.ts:136-137 | a valid DDD followed by digits is a digit string whose first two characters are the DDD |
| PhoneBR.NormalizePhoneCorrected | src/lib/phoneBR.ts:60-68 | the corrected call differs from the one as written only where the code refuses a number as not Brazilian, and then it gives a BR success |
| PhoneBR.CorrectedAcceptsEveryAreaCode | src/lib/phoneBR.ts:139-163 | corrected: every valid DDD, 55 included, followed by a nine-digit mobile is accepted as 55+DDD+mobile |
| JsText.OnlyDigits | src/lib/utils.ts:36 | the result is all digits, no longer than the input, and empty exactly when the input holds no digit |
| JsText.OnlyDigitsAppend | src/lib/utils.ts:36 | removing non-digits distributes over concatenation |
| JsText.Trim | src/pages/admin/Projects/components/CreatePaymentMethod.tsx:98 | the result has no whitespace at either end and is empty exactly when the text is all whitespace |
| JsText.TrimmedIsFixedPoint | src/pages/admin/Projects/components/CreatePaymentMethod.tsx:129-143 | a text is its own trim exactly when it neither starts nor ends with whitespace |
| JsText.TrimIdempotent | src/pages/admin/Projects/components/CreatePaymentMethod.tsx:129-143 | trimming twice is trimming once |
| JsText.OrUndefined | src/pages/admin/Projects/AdminProjectNew.tsx:110 | an empty text sent as undefined: absent exactly for the empty text, otherwise the text itself |
| JsText.IntToString | src/pages/admin/Projects/AdminProjectNew.tsx:142 | `String(n)`: never empty, the decimal digits of a non-negative number, a minus sign and digits for a negative one |
| JsText.ParseInt | src/pages/admin/Projects/AdminProjectNew.tsx:66 | a number is read only from text that holds a decimal or hexadecimal digit |
| JsText.ParseIntNumExactly | src/pages/admin/Projects/AdminProjectNew.tsx:66 | after leading whitespace and one sign, a `0x` prefix gives a number exactly when a hexadecimal digit follows it, and any other text gives a number exactly when it starts with a decimal digit |
| JsText.ParseIntOfIntToString | src/pages/admin/Projects/components/ReportsTab.tsx:44-51 | parseInt reads back every integer from its String() form |
| JsText.PadStart | src/pages/ProjectPage/PaymentRow.tsx:18 | the result is as long as the width or the text, ends with the text and is padded on the left with the fill character |
| JsText.Join | src/pages/ProjectPage/PaymentRow.tsx:22 | the joined text starts with the first part and ends with the last |
| Utils.FormatPhone | src/lib/utils.ts:35-44 | 11 digits fit "(DD) DDDDD-DDDD", 10 digits fit "(DD) DDDD-DDDD", any other count returns the input unchanged |
| Utils.MaskedDigits | src/lib/utils.ts:38-41 | the mask adds no digit: the digits of "(a) b-c" are a, b and c in order |
| Utils.FormatPhoneKeepsDigits | src/lib/utils.ts:35-44 | the digits of the formatted phone are the digits of the input, in order |
| Utils.FormatPhoneIdempotent | src/lib/utils.ts:35-44 | formatting a formatted phone changes nothing |
| Utils.IntervalNoun | src/lib/utils.ts:27-31 | exactly week, month and year have a label |
| Utils.GetIntervalLabel | src/lib/utils.ts:26-33 | a known interval gives exactly "por <noun>" for a count of 1 and exactly "<count>x por <noun>" for any other count, so it starts with "por " exactly when the count is 1; an unknown interval is returned as is |
| Utils.CountedLabel | src/lib/utils.ts:28-30 | exactly "por <noun>" for a count of one and exactly "<count>x por <noun>" otherwise; never empty, and starts with "por " exactly for a count of one |
| Utils.StatusLabelEntry | src/lib/utils.ts:47-54 | every label in the table is non-empty |
| Utils.GetStatusLabel | src/lib/utils.ts:46-56 | null or "" gives "-"; a known status gives its table label; any other status itself; never empty |
| PaymentMethodPayload.TypeName | src/pages/admin/Projects/components/CreatePaymentMethod.tsx:127 | the name is "pix" exactly for the PIX type |
| CreatePaymentMethod.AccountTypeName | src/pages/admin/Projects/components/CreatePaymentMethod.tsx:141 | the name is "checking" exactly for a checking account |
| CreatePaymentMethod.CreateForm.With | src/pages/admin/Projects/components/CreatePaymentMethod.tsx:93 | only the named field changes |
| CreatePaymentMethod.RequiredFields | src/pages/admin/Projects/components/CreatePaymentMethod.tsx:99-119 | label, bank code and document are never required |
| CreatePaymentMethod.PixReported | src/pages/admin/Projects/components/CreatePaymentMethod.tsx:99-105 | for PIX the reported fields are exactly the blank ones of key and holder name |
| CreatePaymentMethod.BankTransferReported | src/pages/admin/Projects/components/CreatePaymentMethod.tsx:106-119 | for a transfer the reported fields are exactly the blank ones of bank name, agency, account number and holder |
| CreatePaymentMethod.CollectCreateErrors | src/pages/admin/Projects/components/CreatePaymentMethod.tsx:97-119 | the error map holds exactly the reported fields, each with its message |
| CreatePaymentMethod.CollectPixErrors | src/pages/admin/Projects/components/CreatePaymentMethod.tsx:99-105 | an entry for the key and for the holder name exactly when blank, with their messages |
| CreatePaymentMethod.CollectBankTransferErrors | src/pages/admin/Projects/components/CreatePaymentMethod.tsx:106-119 | an entry for each of bank name, agency, account number and holder exactly when blank, with its message |
| CreatePaymentMethod.BuildCreatePayload | src/pages/admin/Projects/components/CreatePaymentMethod.tsx:124-146 | the payload's type is the chosen one and its shape follows that type; the PIX key and holder, and the bank name, agency, account number and holder, are the trimmed form texts; the bank code, document and label are their trimmed texts or absent when blank; the account type is copied from the form |
| CreatePaymentMethod.TrimmedText | src/pages/admin/Projects/components/CreatePaymentMethod.tsx:98 | trimmed text is trimmed, and non-empty exactly when the text is not blank |
| CreatePaymentMethod.TrimmedOptional | src/pages/admin/Projects/components/CreatePaymentMethod.tsx:138-145 | an optional text sent as its trim or undefined is absent or non-empty and trimmed |
| CreatePaymentMethod.PixPayloadIsClean | src/pages/admin/Projects/components/CreatePaymentMethod.tsx:124-132 | a PIX payload holds only trimmed text, and a label only when it is non-empty |
| CreatePaymentMethod.PixValidatedFilled | src/pages/admin/Projects/components/CreatePaymentMethod.tsx:99-132 | after validation passes the key and holder sent are non-empty |
| CreatePaymentMethod.BankTransferPayloadIsClean | src/pages/admin/Projects/components/CreatePaymentMethod.tsx:134-145 | a transfer payload holds only trimmed text, with bank code, document and label absent rather than blank |
| CreatePaymentMethod.BankTransferValidatedFilled | src/pages/admin/Projects/components/CreatePaymentMethod.tsx:106-144 | after validation passes the bank name, agency, account number and holder sent are non-empty |
| CreatePaymentMethod.CreatePaymentMethodDialog.constructor | src/pages/admin/Projects/components/CreatePaymentMethod.tsx:48-62 | the dialog opens on PIX with an empty form and no errors |
| CreatePaymentMethod.CreatePaymentMethodDialog.ResetCreateForm | src/pages/admin/Projects/components/CreatePaymentMethod.tsx:72-87 | type PIX, blank fields, a checking account and no errors |
| CreatePaymentMethod.CreatePaymentMethodDialog.UpdateCreateField | src/pages/admin/Projects/components/CreatePaymentMethod.tsx:89-95 | only the named field changes and only its error is cleared |
| CreatePaymentMethod.CreatePaymentMethodDialog.UpdateAccountType | src/pages/admin/Projects/components/CreatePaymentMethod.tsx:89-95 | only the account type changes and only its error is cleared |
| CreatePaymentMethod.CreatePaymentMethodDialog.SelectType | src/pages/admin/Projects/components/CreatePaymentMethod.tsx:203-206 | switching the type clears every error and keeps the form |
| CreatePaymentMethod.CreatePaymentMethodDialog.HandleCreatePaymentMethod | src/pages/admin/Projects/components/CreatePaymentMethod.tsx:96-174 | nothing is sent exactly when a required field is blank, and then the errors become exactly the reported fields, each with its message; otherwise the built payload is sent, an accepted request resets the dialog and a refused one changes nothing |
| AdminProjectNew.CollectProjectErrors | src/pages/admin/Projects/AdminProjectNew.tsx:60-97 | the error map holds exactly the keys the rule table reports, each with its message |
| AdminProjectNew.CollectProjectFieldErrors | src/pages/admin/Projects/AdminProjectNew.tsx:63-81 | a blank title, an empty or below-one limit, an empty or non-positive amount and an empty or below-one payment count are reported, each with its message |
| AdminProjectNew.AddPixErrors | src/pages/admin/Projects/AdminProjectNew.tsx:83-87 | a blank PIX key or holder is added with its message, and the earlier errors stay |
| AdminProjectNew.AddBankErrors | src/pages/admin/Projects/AdminProjectNew.tsx:88-96 | a blank bank name, agency, account or holder is added with its message, and the earlier errors stay |
| AdminProjectNew.BuildProjectPayload | src/pages/admin/Projects/AdminProjectNew.tsx:108-131 | every text is the form's value as typed (untrimmed), the two counts are their parseInt readings, the method payload's shape follows the type, and an empty description, bank code or document is left out |
| AdminProjectNew.ValidatedPayload | src/pages/admin/Projects/AdminProjectNew.tsx:63-131 | after validation passes the title is not blank, both counts are at least 1 or NaN, and the required method fields are not blank |
| AdminProjectNew.FirstMessages | src/pages/admin/Projects/AdminProjectNew.tsx:148-153 | every field of the server's answer maps to its first message and no other field appears |
| AdminProjectNew.GeneralErrorMessage | src/pages/admin/Projects/AdminProjectNew.tsx:155 | the server's message when there is one, otherwise a non-empty default |
| AdminProjectNew.ProjectForm.constructor | src/pages/admin/Projects/AdminProjectNew.tsx:33-53 | the initial form, no errors, no general error |
| AdminProjectNew.ProjectForm.UpdateField | src/pages/admin/Projects/AdminProjectNew.tsx:55-58 | only the named field changes and only its error is cleared |
| AdminProjectNew.ProjectForm.ValidateForm | src/pages/admin/Projects/AdminProjectNew.tsx:60-100 | the errors are replaced by exactly the reported keys; the form is valid exactly when none is reported |
| AdminProjectNew.ProjectForm.HandleSubmit | src/pages/admin/Projects/AdminProjectNew.tsx:102-157 | nothing is sent exactly when validation fails, and then the errors are exactly the reported keys with their messages; otherwise the built payload is sent and the errors are empty, except that a rejection carrying field errors stores the first message of each; a created project is opened, and a rejection shows the server's message or the default |
| NewPaymentModal.CollectPaymentErrors | src/pages/ProjectPage/NewPaymentModal.tsx:73-85 | year, sequence and payment date are always required, the month exactly for week and month intervals, the week exactly for week intervals |
| NewPaymentModal.RequestEntries | src/pages/ProjectPage/NewPaymentModal.tsx:92-96 | the request always starts with year, sequence and payment date |
| NewPaymentModal.RequestEntriesByInterval | src/pages/ProjectPage/NewPaymentModal.tsx:92-105 | month is sent exactly for week and month intervals, the week exactly for week intervals, the receipt exactly when one is chosen, with no name twice; the month and week entries carry the form's month and week and the receipt entry the chosen file |
| NewPaymentModal.SentTextsFilled | src/pages/ProjectPage/NewPaymentModal.tsx:77-105 | after validation passes every text sent is non-empty |
| NewPaymentModal.OptionsQuery | src/pages/ProjectPage/NewPaymentModal.tsx:51-56 | the options query gets a month only for the week interval |
| NewPaymentModal.ArrayLength | src/pages/ProjectPage/NewPaymentModal.tsx:123 | a negative length gives an empty array |
| NewPaymentModal.SequenceOptions | src/pages/ProjectPage/NewPaymentModal.tsx:120-127 | without options the single option "1"; otherwise max-min+1 options min, min+1, ... labelled "#n" |
| NewPaymentModal.SequenceOptionsAscending | src/pages/ProjectPage/NewPaymentModal.tsx:123-126 | the option values read back as min, min+1, ... in ascending order |
| NewPaymentModal.WeekOptions | src/pages/ProjectPage/NewPaymentModal.tsx:129-143 | the server's weeks in order, or the fixed five weeks |
| NewPaymentModal.NewPaymentDialog.constructor | src/pages/ProjectPage/NewPaymentModal.tsx:38-49 | current year and month, week and sequence 1, today's date, no receipt, no errors |
| NewPaymentModal.NewPaymentDialog.HandleFileChange | src/pages/ProjectPage/NewPaymentModal.tsx:58-71 | a file over 10 MB is rejected and leaves the receipt; any other chosen file becomes the receipt |
| NewPaymentModal.NewPaymentDialog.HandleSubmit | src/pages/ProjectPage/NewPaymentModal.tsx:73-105 | nothing is sent exactly when a field is reported; the errors are exactly the reported keys, each with its message; otherwise the request entries are sent |
| ReportsTab.ReportPayloadFor | src/pages/admin/Projects/components/ReportsTab.tsx:49-60 | year and scope always; the month exactly for week and month intervals with a month chosen; the week exactly for week intervals with a week chosen |
| ReportsTab.BuildReportPayload | src/pages/admin/Projects/components/ReportsTab.tsx:49-60 | the body built step by step is the rule's body |
| ReportsTab.ReportStatusBadge | src/pages/admin/Projects/components/ReportsTab.tsx:80-91 | completed, processing and failed get success, warning and error; every other status the default badge with its own text |
| ReportsTab.BadgeTextIsStatusLabel | src/pages/admin/Projects/components/ReportsTab.tsx:80-91 | for every non-empty status other than the member statuses, the badge text is the shared status label |
| ReportsTab.ReportsPanel.constructor | src/pages/admin/Projects/components/ReportsTab.tsx:34-47 | closed, current year, no month or week, accepted payments only |
| ReportsTab.ReportsPanel.OpenGenerate | src/pages/admin/Projects/components/ReportsTab.tsx:34 | the dialog opens and the fields stay |
| ReportsTab.ReportsPanel.HandleGenerate | src/pages/admin/Projects/components/ReportsTab.tsx:49-77 | the rule's body is sent; the dialog closes only when the request succeeds |
| AdminProjectDetails.GetActiveTab | src/pages/admin/Projects/AdminProjectDetails.tsx:80-85 | members is checked first, then payment methods, then reports; otherwise members |
| AdminProjectDetails.TabSegment | src/pages/admin/Projects/AdminProjectDetails.tsx:203-210 | exactly the three tabs have a path |
| AdminProjectDetails.TabPath | src/pages/admin/Projects/AdminProjectDetails.tsx:203-210 | a tab leads exactly to "/admin/projects/<id><segment>"; any other value navigates nowhere |
| AdminProjectDetails.OnlyOwnSegment | src/pages/admin/Projects/AdminProjectDetails.tsx:80-83 | a project path with a digit id contains a tab segment only when it is its own |
| AdminProjectDetails.TabPathRoundTrip | src/pages/admin/Projects/AdminProjectDetails.tsx:80-85 | reading the tab back from a tab's path gives that tab |
| AdminProjectDetails.BuildReportPayload | src/pages/admin/Projects/AdminProjectDetails.tsx:630-641 | the page's copy builds the same body as the reports tab |
| PaymentRow.ApiBaseUrl | src/pages/ProjectPage/PaymentRow.tsx:6-7 | the configured URL when set and non-empty, otherwise the localhost fallback |
| PaymentRow.GetStorageUrl | src/pages/ProjectPage/PaymentRow.tsx:9-12 | no link for a missing or empty path; otherwise base + "/storage/" + path |
| PaymentRow.PeriodParts | src/pages/ProjectPage/PaymentRow.tsx:15-21 | the year first, the padded month when non-zero, "S<week>" when non-zero, "#<sequence>" last |
| PaymentRow.PeriodLabel | src/pages/ProjectPage/PaymentRow.tsx:15-23 | the parts joined with " / ": the label starts with the year and ends with "#<sequence>" |
| PaymentRow.MonthPartReadsBack | src/pages/ProjectPage/PaymentRow.tsx:17-18 | the padded month is at least two characters long and reads back as the month |
| Header.GetUserDisplayName | src/components/Header.tsx:43-49 | "Usuário" without a user; then the first set of first name, user name and phone; then "Explorador"; never empty |
| Header.HasSession | src/components/Header.tsx:51-52 | a session menu is offered exactly when loading has finished and both the user and a non-empty token are present; never while loading |
| Header.Toggled | src/components/Header.tsx:102-105 | the clicked menu closes if open and opens otherwise |
| Header.ToggleTwice | src/components/Header.tsx:102-105 | two clicks restore the prior state from no menu or the same menu, and close everything from the other menu |
| Header.HeaderMenus.constructor | src/components/Header.tsx:26-28 | no menu is open |
| Header.HeaderMenus.ClickMenuButton | src/components/Header.tsx:189-191 | the new open menu is the toggled one |
| Header.HeaderMenus.MouseDown | src/components/Header.tsx:33-36 | a press outside the menu area closes every menu; any other press changes nothing |
| ProtectedRoute.IsDash | src/routes/ProtectedRoute.tsx:14 | a dashboard path is exactly "/admin" or one starting with "/admin/" |
| ProtectedRoute.AdminPrefixIsNotEnough | src/routes/ProtectedRoute.tsx:14 | "/administrator" is not a dashboard path, "/admin" and "/admin/projects" are |
| ProtectedRoute.Decide | src/routes/ProtectedRoute.tsx:15-35 | loading exactly while loading; not found exactly outside the dashboard with no participant; the page otherwise |
| ToastProvider.ItemOf | src/components/feedback/ToastProvider.tsx:29-30 | the item keeps title and description, has the id, and its variant defaults to "default" |
| ToastProvider.Without | src/components/feedback/ToastProvider.tsx:19-21 | no kept item has the id, every other item is kept, and nothing new appears |
| ToastProvider.WithoutAbsent | src/components/feedback/ToastProvider.tsx:20 | dismissing an absent id changes nothing |
| ToastProvider.WithoutIdempotent | src/components/feedback/ToastProvider.tsx:20 | dismissing twice is dismissing once |
| ToastProvider.WithoutAppend | src/components/feedback/ToastProvider.tsx:20 | the kept items keep their original order |
| ToastProvider.ToastThenDismiss | src/components/feedback/ToastProvider.tsx:24-31 | a toast with a fresh id, dismissed by its timer, leaves the list as before |
| ToastProvider.ToastList.constructor | src/components/feedback/ToastProvider.tsx:17 | no toast |
| ToastProvider.ToastList.Toast | src/components/feedback/ToastProvider.tsx:24-31 | exactly one item is appended and the earlier ones stay |
| ToastProvider.ToastList.Dismiss | src/components/feedback/ToastProvider.tsx:19-21 | the list is filtered by the id, which is then absent |
| ThemeProvider.ThemeName | src/components/ThemeProvider.tsx:14-19 | "light" and "dark" name the two themes |
| ThemeProvider.InitialTheme | src/components/ThemeProvider.tsx:6-12 | a stored "light" or "dark" wins; otherwise dark exactly when the system prefers dark |
| ThemeProvider.StoredThemeReadsBack | src/components/ThemeProvider.tsx:7-18 | the theme written to storage is the theme read on the next start |
| ThemeProvider.Flip | src/components/ThemeProvider.tsx:21-23 | toggling always changes the theme |
| ThemeProvider.ThemeState.constructor | src/components/ThemeProvider.tsx:6-12 | the initial theme |
| ThemeProvider.ThemeState.ToggleTheme | src/components/ThemeProvider.tsx:21-23 | light becomes dark and dark light |

## Left out

- Rendering, styling, routing wiring and the document, `localStorage` and `matchMedia` calls; the theme's class-list and storage write is stated only as `ThemeProvider.StoredThemeReadsBack`.
- Network calls: a request's outcome is a parameter (`accepted`, `outcome`), and the toasts, `refetch`, `onSuccess` and `closeModal` calls that follow are not modelled.
- The 4500 ms timer that dismisses a toast: the dismissal is modelled as a call of `Dismiss`.
- `parseFloat`: the amount is sent as the typed text, and its "at most zero" test is the parameter `amountAtMostZero`.
- `String(n)` and `parseInt` for numbers of 1e21 or more and for non-integers (exponent notation), which the forms never produce.
- Keys inherited from `Object.prototype` (`"constructor"`, `"toString"`) in the label tables of `getIntervalLabel` and `getStatusLabel`.
- An explicit `undefined` passed for an option of `normalizePhone` is treated as a left-out key.
- The setters of the payment dialog's select fields and the report dialog's fields: each is a plain assignment of one field.
- `AdminProjectNew.FirstMessages`: a field whose message list is empty stores `""` where the code stores `undefined`; both show nothing.
- `CreatePaymentMethod.CollectCreateErrors`: errors are keyed by a field type rather than by field-name strings.
- The details page's copy of `getReportStatusBadge` is the same as the reports tab's and is not modelled twice.
- Sign-out from the header, and the admin-login redirect of the new-project page.
- `AdminProjectDetails.TabPathRoundTrip`: is stated for digit-only project ids (the route's numeric id); an id holding one of the tab segments would change the tab read back.

## Findings

| source | as written | input that shows it | evidently intended | confidence | as-written member | corrected member |
|---|---|---|---|---|---|---|
| src/lib/phoneBR.ts:104-105 | `tryNormalizeBR` removes a leading `55` as the country code even when the digits are a national number whose DDD is 55, so a ten- or eleven-digit national number from that area code is too short after the strip and is refused; `normalizePhone` then returns that failure because the digits start with 55 | `normalizePhone("55991234567")` gives the failure "Não parece um número BR." although 55 passes the DDD check at line 140 | a national number with DDD 55 is accepted like every other DDD: "55991234567" gives the BR value "5555991234567" | medium, not executed | PhoneBR.AreaCode55NationalRefused | PhoneBR.NormalizePhoneCorrected, PhoneBR.CorrectedAcceptsEveryAreaCode |
