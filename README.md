# vPrint front end — a Dafny model of its core

vPrint is a campus print shop. A customer uploads a PDF, chooses colour, binding and
campus delivery, sees the price, enters their details, reviews the order and pays; an
administrator watches the orders, filters and sorts them, prints pending jobs and
updates their status. This project models the logic of the React front end that does
this:

- the three copies of the rate table (the `usePriceCalculator` hook, the receipt
  generator and the `PriceCalculator` estimator widget) and the proof that they price
  every order alike;
- the file utilities and validators (extension, PDF test, filename sanitising, size
  limit, first-error-wins validation);
- the customer forms: `UserInfoForm` (required fields, phone and email patterns) and
  `PrintingForm` (upload, options, server price, preview paging, submission);
- the session (`PrintingContext`) and the two checkout flows (`PrintingPage`,
  `HomePage`), the payment verification page and the order lookup page;
- the admin side: the dashboard's filters, sort and status update, the print queue,
  and the admin layout's navigation and title.

Pure code (pricing, receipts, validators, utilities) is modelled as functions and
lemmas. Components whose handlers change state are classes whose methods update their
fields; server replies, the operator's answers to confirmation dialogs and the clock
are parameters of those methods. Money is whole cedis (`int`). Strings are `seq<char>`.

Modules: `Types` (the shapes of `src/types/index.ts`), `Text` (whitespace, trim, ASCII
case mapping, prefixes and substrings, decimal digits, lexicographic order), `Seqs`
(`Array.filter`), and one module per modelled file.

## Model

| member | source | states |
|---|---|---|
| Pricing.GetPricePerPage | src/hooks/usePriceCalculator.ts:84-86 | monochrome costs 1 per page, colour 2 per page |
| Pricing.GetBindingPrice | src/hooks/usePriceCalculator.ts:91-93 | the binding fees: none 0, comb 5, slide 7, tape 3 |
| Pricing.GetDeliveryPrice | src/hooks/usePriceCalculator.ts:98-100 | campus delivery costs 2 |
| Pricing.CalculatePriceBreakdown | src/hooks/usePriceCalculator.ts:42-66 | the total is the sum of the three items; the base cost is pages times the colour's rate; the binding fee is one of 0/3/5/7; delivery adds 2 only when chosen |
| Pricing.CalculatePrice | src/hooks/usePriceCalculator.ts:71-79 | the price is pages × per-page rate + binding fee + delivery fee, in terms of the three getters |
| Pricing.GettersAgreeWithBreakdown | src/hooks/usePriceCalculator.ts:42-100 | each getter agrees with its item of the breakdown, and the price is the breakdown's total |
| Pricing.BaseCostMonotone | src/hooks/usePriceCalculator.ts:49 | more pages never lower the base cost or the total |
| Pricing.ColoredNotCheaper | src/hooks/usePriceCalculator.ts:24-33 | the same order in colour never costs less than in monochrome |
| Pricing.BindingIndependent | src/hooks/usePriceCalculator.ts:52 | the binding fee depends on the binding method alone |
| Pricing.ScenarioTenMonochromePages | src/hooks/usePriceCalculator.ts:42-66 | ten monochrome pages, no binding, no delivery: base 10, total 10 |
| Receipt.FormatBinding | src/utils/receiptGenerator.ts:27-30 | "none" reads "No Binding"; any other name gets its first letter upper-cased and " Binding" appended, the rest kept |
| Receipt.BindingCostLookup | src/utils/receiptGenerator.ts:49-56 | a fee of 0, 3, 5 or 7; any name outside the four known ones costs 0 |
| Receipt.ReceiptBaseCost | src/utils/receiptGenerator.ts:45-47 | pages for monochrome, twice the pages for anything else |
| Receipt.GenerateReceiptData | src/utils/receiptGenerator.ts:22-72 | identity fields copied; empty file name replaced by "Unknown Document"; the three cost items recomputed from the receipt's own table; the total copied from the order, not recomputed |
| Receipt.CombLabel | src/utils/receiptGenerator.ts:27-30 | a comb binding reads "Comb Binding" |
| Receipt.TotalNotRecomputed | src/utils/receiptGenerator.ts:70 | an order whose stored total (25) disagrees with its items (10) keeps 25 on the receipt |
| PriceAgreement.TablesAgree | src/components/PriceCalculator.tsx:9-21 | the estimator's rate table holds the hook's default rates, entry for entry |
| PriceAgreement.EstimatorAgreesWithHook | src/components/PriceCalculator.tsx:36-50 | the estimator's total equals the hook's price for every page count and option |
| PriceAgreement.ReceiptAgreesWithHook | src/utils/receiptGenerator.ts:45-57 | the receipt's base, binding and delivery items equal the hook's breakdown of the same order |
| PriceAgreement.ReceiptBalancesForHookPricedOrder | src/utils/receiptGenerator.ts:59-72 | for an order priced by the hook's breakdown, the receipt's total is the sum of its items |
| PriceEstimator.EstimateTotal | src/components/PriceCalculator.tsx:41-45 | printing at 1 or 2 per page, plus the binding fee 0/5/7/3, plus 2 for delivery |
| PriceEstimator.ClampPageInput | src/components/PriceCalculator.tsx:92 | the page count is at least 1: a parsed value of 1 or more is kept, anything else (NaN, 0, negative) becomes 1 |
| PriceEstimator.Estimator.constructor | src/components/PriceCalculator.tsx:25-33 | one monochrome page, no binding, no delivery, total 0, no results shown |
| PriceEstimator.Estimator.CalculatePrice | src/components/PriceCalculator.tsx:36-50 | results are shown, the total is the estimate of the current options, and the options are unchanged |
| PriceEstimator.Estimator.AutoRecalculate | src/components/PriceCalculator.tsx:53-57 | recalculates only when results are already shown; otherwise the old total stays |
| PriceEstimator.Estimator.SetPageCount | src/components/PriceCalculator.tsx:92 | the page count becomes the clamped input; a shown total stays the total of the current options |
| PriceEstimator.Estimator.SetPrintType | src/components/PriceCalculator.tsx:53-57 | the colour changes and a shown total follows it |
| PriceEstimator.Estimator.SetBinding | src/components/PriceCalculator.tsx:53-57 | the binding changes and a shown total follows it |
| PriceEstimator.Estimator.SetDelivery | src/components/PriceCalculator.tsx:53-57 | the delivery choice changes and a shown total follows it |
| PriceEstimator.Estimator.BreakdownLines | src/components/PriceCalculator.tsx:226-239 | no lines before results; then printing and binding lines, plus a delivery line exactly when delivery is chosen; the lines add up to the shown total |
| FileUtils.LastSegment | src/utils/fileUtils.ts:23-25 | the suffix after the last '.', containing no '.'; the whole name when there is no '.' |
| FileUtils.GetFileExtension | src/utils/fileUtils.ts:23-25 | the lower-cased text after the last '.' of the name |
| FileUtils.NoDotExtension | src/utils/fileUtils.ts:23-25 | a name without '.' is its own extension, lower-cased |
| FileUtils.TrailingDotExtension | src/utils/fileUtils.ts:23-25 | a name ending in '.' has the empty extension |
| FileUtils.ExtensionAfterLastDot | src/utils/fileUtils.ts:23-25 | the extension of stem + "." + tail is the lower-cased tail when the tail has no '.' |
| FileUtils.IsPdfFile | src/utils/fileUtils.ts:32-41 | a file is a PDF iff its MIME type is application/pdf or its extension is "pdf" in any case |
| FileUtils.SanitizeFilename | src/utils/fileUtils.ts:48-51 | the result holds only word, whitespace, '.' and '-' characters, is obtained from the name by deleting characters, keeps every such character as often as it occurs and drops every other, and leaves a clean name unchanged |
| FileUtils.SanitizeStep | src/utils/fileUtils.ts:48-51 | keeping the first character exactly when it is safe, in front of the cleaned tail, cleans the whole name |
| FileUtils.SubsequenceDropFirst | src/utils/fileUtils.ts:48-51 | deleting characters from the tail of a name is deleting characters from the name |
| FileUtils.SubsequenceTail | src/utils/fileUtils.ts:48-51 | dropping the first character of a subsequence leaves a subsequence |
| FileUtils.SanitizeIdempotent | src/utils/fileUtils.ts:48-51 | sanitising twice is sanitising once |
| FileUtils.IsFileSizeValid | src/utils/fileUtils.ts:90-92 | a size is valid iff it is at most the limit |
| FileUtils.DefaultLimitBoundary | src/utils/fileUtils.ts:90-92 | the default limit is 52428800 bytes: exactly that passes, one byte more fails |
| FileUtils.FileSizeUnit | src/utils/fileUtils.ts:8-16 | bytes below 1024, KB below 1048576, MB from there on |
| FileValidators.ValidateFileSize | src/utils/fileValidators.ts:13-18 | an error iff the size exceeds 50 MiB, with the message naming the limit in MB |
| FileValidators.SizeMessageText | src/utils/fileValidators.ts:15 | the limit in the size message reads "50" |
| FileValidators.ValidateFilePdf | src/utils/fileValidators.ts:25-30 | an error iff the MIME type is not application/pdf |
| FileValidators.ValidateFileName | src/utils/fileValidators.ts:37-44 | an error iff the name holds one of < > : " / \ \| ? * |
| FileValidators.ValidateFile | src/utils/fileValidators.ts:51-63 | no error iff all three checks pass; otherwise the first failing check's message, in the order size, type, name |
| FileValidators.SizeCheckAgreesWithUtils | src/utils/fileValidators.ts:6 | the validators' size check and the utilities' default size check accept the same files |
| FileValidators.SizeBoundary | src/utils/fileValidators.ts:13-18 | exactly 50 MiB passes, one byte more is refused |
| FileValidators.TypeCheckIgnoresExtension | src/utils/fileValidators.ts:25-30 | a ".pdf" file with a non-PDF MIME type fails the validator although the utilities' PDF test accepts it |
| UserInfoForm.SetField | src/components/UserInfoForm.tsx:24-27 | the edited field takes the value, every other field keeps its value |
| UserInfoForm.InitialFormData | src/components/UserInfoForm.tsx:12-18 | each field starts as the initial value, or empty when it is missing |
| UserInfoForm.StripPhone | src/components/UserInfoForm.tsx:48 | no whitespace or '-' remains; a value without separators is unchanged |
| UserInfoForm.StripPhoneKeepsOthers | src/components/UserInfoForm.tsx:48 | every non-separator character is kept as often as it occurs |
| UserInfoForm.PhoneMatches | src/components/UserInfoForm.tsx:48 | the phone test on the stripped value; no contract of its own, characterised by `UserInfoForm.PhoneMatchesIffPattern` |
| UserInfoForm.PhoneMatchesIffPattern | src/components/UserInfoForm.tsx:48 | the phone test accepts exactly an optional '+' followed by 10 to 15 digits |
| UserInfoForm.IndexOf | src/components/UserInfoForm.tsx:54 | the first occurrence of a character, or none iff it does not occur |
| UserInfoForm.EmailMatches | src/components/UserInfoForm.tsx:54 | the email test; no contract of its own, characterised by `UserInfoForm.EmailMatchesIffPattern` |
| UserInfoForm.EmailMatchesIffPattern | src/components/UserInfoForm.tsx:54 | the email test accepts exactly local@domain.top with non-empty parts and no whitespace or second '@' |
| UserInfoForm.RecordAllEntries | src/components/UserInfoForm.tsx:39-65 | recording the five outcomes in turn gives an entry exactly for each failing field, holding its message |
| UserInfoForm.FieldErrors | src/components/UserInfoForm.tsx:38-66 | the error record has an entry exactly for each failing field, holding that field's message |
| UserInfoForm.RequiredError | src/components/UserInfoForm.tsx:42-44 | the message for a blank required field; no contract of its own, characterised by `UserInfoForm.RequiredFieldRule` |
| UserInfoForm.PhoneError | src/components/UserInfoForm.tsx:46-50 | the phone's required-then-pattern check; no contract of its own, characterised by `UserInfoForm.PhoneRule` |
| UserInfoForm.EmailError | src/components/UserInfoForm.tsx:52-56 | the email's required-then-pattern check; no contract of its own, characterised by `UserInfoForm.EmailRule` |
| UserInfoForm.RequiredFieldRule | src/components/UserInfoForm.tsx:42-44 | name, course and class fail exactly when the trimmed value is empty |
| UserInfoForm.PhoneRule | src/components/UserInfoForm.tsx:46-50 | "required" iff the trimmed phone is empty; "invalid" iff it is not empty and the stripped phone misses the pattern; no error otherwise |
| UserInfoForm.EmailRule | src/components/UserInfoForm.tsx:52-56 | "required" iff the trimmed email is empty; "invalid" iff it is not empty and the untrimmed email misses the pattern; no error otherwise |
| UserInfoForm.EmailNotTrimmed | src/components/UserInfoForm.tsx:54 | a non-blank email with leading whitespace is rejected as invalid |
| UserInfoForm.PatternStartsWithEmailChar | src/components/UserInfoForm.tsx:54 | an accepted email starts with a non-whitespace, non-'@' character |
| UserInfoForm.NoErrorsIffAllValid | src/components/UserInfoForm.tsx:67 | the error record is empty iff every field passes its checks |
| UserInfoForm.FormState.constructor | src/components/UserInfoForm.tsx:12-20 | the initial form data and no errors |
| UserInfoForm.FormState.HandleChange | src/components/UserInfoForm.tsx:22-36 | the field takes the value and loses its error; nothing else changes |
| UserInfoForm.FormState.Validate | src/components/UserInfoForm.tsx:38-68 | the errors become the record of failing fields; the result is true iff every field is valid |
| UserInfoForm.FormState.HandleSubmit | src/components/UserInfoForm.tsx:70-76 | the form data is submitted unchanged exactly when every field is valid |
| PrintingForm.PreviewUrl | src/services/api.ts:26-28 | the preview route followed by the file id |
| PrintingForm.PreviewUrlInjective | src/services/api.ts:26-28 | different files get different preview addresses |
| PrintingForm.ComposeOrder | src/components/PrintingForm.tsx:108-116 | the order carries the upload's id, name and page count, the chosen options and the server's total, and no page split |
| PrintingForm.ReceiptOfComposedOrder | src/components/PrintingForm.tsx:108-116 | the receipt of a submitted order shows the server's total, the page count and the uploaded name |
| PrintingForm.Form.constructor | src/components/PrintingForm.tsx:14-41 | no file, preview, price or error; page 1; monochrome, no binding, no delivery |
| PrintingForm.Form.HandleFileChange | src/components/PrintingForm.tsx:46-72 | no file chosen: nothing changes; an upload stores the file, its preview and page 1; a failure clears file and preview and sets the upload error |
| PrintingForm.Form.SetOptions | src/components/PrintingForm.tsx:30-32 | the options change, nothing else does |
| PrintingForm.Form.UpdatePrice | src/components/PrintingForm.tsx:75-92 | a request only with a file, carrying its page split and the options; only a reply replaces the breakdown |
| PrintingForm.Form.HandleSubmit | src/components/PrintingForm.tsx:100-119 | nothing is submitted iff file or price is missing, and then the error is set; otherwise the composed order is submitted |
| PrintingForm.Form.HandleClearFile | src/components/PrintingForm.tsx:129-138 | file, preview, error and price are cleared |
| PrintingForm.Form.HandlePageChange | src/components/PrintingForm.tsx:141-148 | the page moves only to a page of the uploaded file |
| PrintingContext.AddToHistory | src/context/PrintingContext.tsx:39-41 | the order goes first and the earlier history follows unchanged |
| PrintingContext.AddRecentUpload | src/context/PrintingContext.tsx:44-54 | a file with the same name and size leaves the list as is; otherwise the file goes first and the list is cut to five |
| PrintingContext.RecentUploadsBounded | src/context/PrintingContext.tsx:51 | a list of at most five stays at most five |
| PrintingContext.AddedFileIsPresent | src/context/PrintingContext.tsx:44-54 | after an add the file is in the list |
| PrintingContext.AddKeepsDistinct | src/context/PrintingContext.tsx:47-51 | no two entries ever share name and size |
| PrintingContext.PrintingSession.constructor | src/context/PrintingContext.tsx:30-36 | no current order, empty history and uploads |
| PrintingContext.PrintingSession.SetCurrentOrder | src/context/PrintingContext.tsx:30 | the current order changes, nothing else |
| PrintingContext.PrintingSession.AddToOrderHistory | src/context/PrintingContext.tsx:39-41 | the history gains the order in front; the rest of the session is kept |
| PrintingContext.PrintingSession.AddToRecentUploads | src/context/PrintingContext.tsx:44-54 | the uploads follow the add rule and stay distinct and at most five |
| PrintingContext.PrintingSession.ClearContext | src/context/PrintingContext.tsx:57-61 | no current order, no history, no uploads |
| PrintingPage.WithUserInfo | src/components/PrintingPage.tsx:39-43 | the draft with the customer's details attached and nothing else changed |
| PrintingPage.CheckoutFlow.constructor | src/components/PrintingPage.tsx:18-26 | upload step, not processing, no draft, empty number, reference and address |
| PrintingPage.CheckoutFlow.HandleOrderSubmit | src/components/PrintingPage.tsx:29-32 | the order becomes the draft and the details step follows |
| PrintingPage.CheckoutFlow.HandleUserInfoSubmit | src/components/PrintingPage.tsx:35-46 | with a draft, the draft plus details becomes the current order and review follows; without one nothing changes |
| PrintingPage.CheckoutFlow.HandleOrderConfirm | src/components/PrintingPage.tsx:49-88 | the current order is sent as is; a result sets number, reference and address together, adds the order to the history and moves to payment; a failure or a missing order changes none of these; never left processing |
| PrintingPage.CheckoutFlow.HandlePaymentCancel | src/components/PrintingPage.tsx:96-99 | back to review with the order kept |
| PrintingPage.CheckoutFlow.HandleBackToUserInfo | src/components/PrintingPage.tsx:102-104 | back to the details step with the order kept |
| PrintingPage.CheckoutFlow.BackToUpload | src/components/PrintingPage.tsx:303 | back to the upload step with the order kept |
| PrintingPage.CheckoutFlow.HandleNewOrder | src/components/PrintingPage.tsx:107-111 | current order and draft cleared, upload step; the history is kept |
| PaymentStatus.ParseStatus | src/components/PaymentStatus.tsx:35 | the four known status names map to their states; any other value is kept as it came |
| PaymentStatus.OrElse | src/components/PaymentStatus.tsx:37 | the first value unless it is absent or empty, else the fallback |
| PaymentStatus.CheckOutcome | src/components/PaymentStatus.tsx:29-49 | success: the reply's status and message, and its order number or the address's; refusal: error with the reply's message or the default, order number kept; thrown: error with the retry message |
| PaymentStatus.FailedCheckExplains | src/components/PaymentStatus.tsx:38-45 | a check without a successful reply ends in the error state with a non-empty message |
| PaymentStatus.SuccessShowsOrderNumber | src/components/PaymentStatus.tsx:37 | after success an order number is shown whenever the server or the address supplied one |
| PaymentStatus.ConfirmationPath | src/components/PaymentStatus.tsx:57-59 | the confirmation route followed by the order number |
| PaymentStatus.PaymentCheck.constructor | src/components/PaymentStatus.tsx:10-16 | loading, pending, no message, no order number |
| PaymentStatus.PaymentCheck.CheckPaymentStatus | src/components/PaymentStatus.tsx:29-49 | the reference is sent once; the page shows the reply's outcome and stops loading |
| PaymentStatus.PaymentCheck.Mount | src/components/PaymentStatus.tsx:18-26 | no call iff there is no reference, and then the "no reference" error; otherwise the check's outcome |
| PaymentStatus.PaymentCheck.HandleRetryCheck | src/components/PaymentStatus.tsx:52-54 | the same check once more |
| PaymentStatus.PaymentCheck.HandleGoToConfirmation | src/components/PaymentStatus.tsx:57-59 | navigates to the confirmation route for the shown order number |
| HomePage.ExactlyOneView | src/components/HomePage.tsx:32-93 | exactly one screen renders: the form iff no order and not confirmed, the summary iff an order and not confirmed, the confirmation iff confirmed |
| HomePage.OrderNumberText | src/components/HomePage.tsx:108 | the order number starts with "PS" |
| HomePage.OrderNumberShape | src/components/HomePage.tsx:108 | the order number is six characters: "PS" and four digits denoting the draw, so distinct draws give distinct numbers |
| HomePage.PaddedNumeral | src/components/HomePage.tsx:108 | padding a numeral of at most four digits with zeros to four keeps it a numeral of the same value |
| HomePage.Flow.constructor | src/components/HomePage.tsx:8-9 | no order, not confirmed: the form shows |
| HomePage.Flow.HandleOrderSubmit | src/components/HomePage.tsx:11-13 | the order is kept for the summary |
| HomePage.Flow.HandleOrderConfirm | src/components/HomePage.tsx:15-18 | confirmed with the order kept: the confirmation shows |
| HomePage.Flow.HandleOrderCancel | src/components/HomePage.tsx:20-22 | the order is dropped, the flag kept |
| HomePage.Flow.HandleNewOrder | src/components/HomePage.tsx:24-27 | both reset: the form shows |
| TrackOrder.LookupPath | src/components/TrackOrderPage.tsx:12-32 | no target iff the input is blank; otherwise the order route followed by the trimmed input, which starts and ends with a non-whitespace character |
| TrackOrder.LookupIgnoresSurroundingSpace | src/components/TrackOrderPage.tsx:16-30 | whitespace around a number does not change where it leads |
| TrackOrder.TrimOfPadded | src/components/TrackOrderPage.tsx:30 | trimming removes blank padding on both sides of a trimmed string |
| TrackOrder.TrimStartSkipsBlank | src/components/TrackOrderPage.tsx:30 | leading trim drops a blank prefix before a non-whitespace character |
| TrackOrder.TrimEndSkipsBlank | src/components/TrackOrderPage.tsx:30 | trailing trim drops a blank suffix after a non-whitespace character |
| TrackOrder.TrimmedStartsSolid | src/components/TrackOrderPage.tsx:30 | a trimmed non-empty string has non-whitespace ends and trims to itself |
| TrackOrder.Lookup.constructor | src/components/TrackOrderPage.tsx:7-9 | empty input, no error, not submitting |
| TrackOrder.Lookup.SetOrderNumber | src/components/TrackOrderPage.tsx:69 | the input takes the typed value |
| TrackOrder.Lookup.HandleSubmit | src/components/TrackOrderPage.tsx:12-32 | the target is the lookup path; blank input sets the error and stays; otherwise the error is cleared and the form submits |
| TrackOrder.Lookup.ClearInput | src/components/TrackOrderPage.tsx:73-77 | the input is emptied |
| Seqs.Filter | src/components/AdminDashboard.tsx:92 | the kept elements are no more than the input |
| Seqs.FilterCounts | src/components/AdminDashboard.tsx:92-133 | each element is kept as often as it occurs when it passes, and not at all otherwise |
| Seqs.FilterAppend | src/components/PrintQueue.tsx:39 | filtering a concatenation filters each part |
| Seqs.FilterAllPass | src/components/AdminDashboard.tsx:91-133 | when every element passes, filtering changes nothing |
| Seqs.FilterCompose | src/components/AdminDashboard.tsx:91-133 | filtering by one test and then another is filtering by both |
| AdminDashboard.WithFilter | src/components/AdminDashboard.tsx:173-178 | the named filter takes the value, the others keep theirs |
| AdminDashboard.StatusOk | src/components/AdminDashboard.tsx:91-93 | the status filter; no contract of its own, characterised by `AdminDashboard.StatusSelects` and `AdminDashboard.FilterAndSort` |
| AdminDashboard.StatusSelects | src/components/AdminDashboard.tsx:91-93 | a status other than 'all' keeps exactly the orders whose status has that name |
| AdminDashboard.DateOk | src/components/AdminDashboard.tsx:96-121 | the date-range filter against midnight cut-offs; no contract of its own, characterised by `AdminDashboard.DateWindows` |
| AdminDashboard.DateWindows | src/components/AdminDashboard.tsx:96-121 | with ordered cut-offs, today and yesterday each lie within this week, this week within this month, today and yesterday are disjoint, and any other range keeps every order |
| AdminDashboard.SearchOk | src/components/AdminDashboard.tsx:124-133 | the search filter; no contract of its own, characterised by `AdminDashboard.SearchMeansOccurrence` and `AdminDashboard.SearchIgnoresCase` |
| AdminDashboard.SearchMeansOccurrence | src/components/AdminDashboard.tsx:124-133 | a non-empty search keeps an order iff the lower-cased term occurs in the lower-cased order number, file name, customer name or customer email |
| AdminDashboard.SearchIgnoresCase | src/components/AdminDashboard.tsx:125-133 | the search term's case does not matter |
| AdminDashboard.BeforeTotal | src/components/AdminDashboard.tsx:136-167 | any two orders are comparable under the chosen sorting |
| AdminDashboard.BeforeTrans | src/components/AdminDashboard.tsx:136-167 | the sort order is transitive |
| AdminDashboard.InsertLowerBound | src/components/AdminDashboard.tsx:136-167 | an order that may precede the inserted order and every listed order may precede every order of the result |
| AdminDashboard.InsertPerm | src/components/AdminDashboard.tsx:136-167 | inserting adds exactly the inserted order |
| AdminDashboard.InsertSorted | src/components/AdminDashboard.tsx:136-167 | inserting into a sorted list keeps it sorted |
| AdminDashboard.SortStep | src/components/AdminDashboard.tsx:136-167 | inserting the head into a sorted permutation of the tail gives a sorted permutation of the whole |
| AdminDashboard.SortOrders | src/components/AdminDashboard.tsx:136-167 | the result is ordered by the chosen column and direction and is a permutation of the input |
| AdminDashboard.StatusStage | src/components/AdminDashboard.tsx:91-93 | skipping the status filter for 'all' keeps exactly what the status test keeps |
| AdminDashboard.DateStage | src/components/AdminDashboard.tsx:96-121 | after the status stage, the date stage (skipped for 'all') keeps exactly what the status and date tests together keep |
| AdminDashboard.SearchStage | src/components/AdminDashboard.tsx:124-133 | after the status and date stages, the search stage (skipped for an empty term) keeps exactly the orders passing every filter |
| AdminDashboard.FilterAndSort | src/components/AdminDashboard.tsx:87-170 | the view is sorted and holds exactly the orders passing the status, date and search filters, each as often as in the input |
| AdminDashboard.NextSorting | src/components/AdminDashboard.tsx:181-186 | the chosen column; descending iff it was already the column and ascending |
| AdminDashboard.SortTwiceRestores | src/components/AdminDashboard.tsx:181-186 | clicking the current column twice restores the sorting |
| AdminDashboard.WithStatus | src/components/AdminDashboard.tsx:67-69 | orders with that number get the new status, with no other field changed; other orders are unchanged |
| AdminDashboard.Dashboard.constructor | src/components/AdminDashboard.tsx:11-31 | no orders, loading, filters all/all/empty, newest first |
| AdminDashboard.Dashboard.ApplyFilters | src/components/AdminDashboard.tsx:87-170 | the staged filters and the sort produce the filtered, sorted view |
| AdminDashboard.Dashboard.FetchOrders | src/components/AdminDashboard.tsx:34-46 | a reply replaces orders and view; a failure sets the error and keeps both; loading ends |
| AdminDashboard.Dashboard.FetchOrderDetails | src/components/AdminDashboard.tsx:49-57 | a reply becomes the selected order; a failure sets the error |
| AdminDashboard.Dashboard.UpdateOrderStatus | src/components/AdminDashboard.tsx:60-84 | accepted: the status is applied, the view rebuilt, the selected order follows only if it has that number; refused: only the error changes |
| AdminDashboard.Dashboard.HandleFilterChange | src/components/AdminDashboard.tsx:173-178 | the filter changes and the view is rebuilt from the current orders |
| AdminDashboard.Dashboard.HandleSortChange | src/components/AdminDashboard.tsx:181-186 | the sorting advances and the view is rebuilt |
| PrintQueue.RemoveJobs | src/components/PrintQueue.tsx:39 | every job with that number leaves; every other job stays as often as it was there |
| PrintQueue.RemoveJobsKeepsOrder | src/components/PrintQueue.tsx:39 | removal works part by part, so the remaining jobs keep their order; a queue without that number is unchanged |
| PrintQueue.JobCountLabel | src/components/PrintQueue.tsx:160 | the count followed by " job" or " jobs"; no contract of its own, its plural rule is `PrintQueue.JobNoun` |
| PrintQueue.JobNoun | src/components/PrintQueue.tsx:160 | "job" exactly for one job, "jobs" otherwise |
| PrintQueue.Queue.constructor | src/components/PrintQueue.tsx:11-15 | no jobs, loading, nothing selected, not printing |
| PrintQueue.Queue.FetchPrintJobs | src/components/PrintQueue.tsx:18-29 | a reply replaces the jobs; a failure sets the error and keeps them; loading ends |
| PrintQueue.Queue.SelectJob | src/components/PrintQueue.tsx:14 | the job is selected |
| PrintQueue.Queue.UpdateJobStatus | src/components/PrintQueue.tsx:32-45 | accepted: the job leaves the queue and the selection clears; refused: only the error changes |
| PrintQueue.Queue.MarkSelected | src/components/PrintQueue.tsx:349-367 | an update for the selected job is sent iff the operator confirms; an accepted update removes that job, clears the selection and keeps the error, a refused one sets the update error and keeps jobs and selection |
| PrintQueue.Queue.PrintDocument | src/components/PrintQueue.tsx:48-85 | printing ends on every path; a completed update is sent iff the dialog ran and the operator confirmed; an accepted update removes the job and keeps the error, a refused one sets the update error; a setup failure sets the print error |
| AdminLayout.FindFirst | src/components/AdminLayout.tsx:173 | the first item passing the test, or none iff no item passes |
| AdminLayout.PageTitle | src/components/AdminLayout.tsx:173 | the header title; no contract of its own, characterised by `AdminLayout.TitleIsDashboardOrFallback` and `AdminLayout.PrintQueueTitleMismatch` |
| AdminLayout.TitleIsDashboardOrFallback | src/components/AdminLayout.tsx:173 | the header reads "Dashboard" on every admin address and "Admin Panel" elsewhere |
| AdminLayout.PathsUnderAdmin | src/components/AdminLayout.tsx:25-73 | every navigation path begins with "/admin" |
| AdminLayout.IsActive | src/components/AdminLayout.tsx:20-22 | the plain prefix test; no contract of its own, characterised by `AdminLayout.TitleIsDashboardOrFallback` and `AdminLayout.PrefixOfPrefix` |
| AdminLayout.PrefixOfPrefix | src/components/AdminLayout.tsx:20-22 | a prefix of a prefix is a prefix |
| AdminLayout.PrintQueueTitleMismatch | src/components/AdminLayout.tsx:173 | on the print-queue page the header reads "Dashboard" while the sidebar highlights "Print Queue" |
| AdminLayout.LinkActive | src/components/AdminLayout.tsx:117-120 | the sidebar's matching rule; no contract of its own, characterised by `AdminLayout.HighlightedTitleNamesOwnPage` |
| AdminLayout.HighlightedTitle | src/components/AdminLayout.tsx:117-120 | the title under the sidebar's matching rule, the corrected header; no contract of its own, characterised by `AdminLayout.HighlightedTitleNamesOwnPage` and `AdminLayout.PrintQueueTitleMismatch` |
| AdminLayout.HighlightedTitleNamesOwnPage | src/components/AdminLayout.tsx:117-120 | with the sidebar's matching rule every item's own page is titled with that item's name |
| AdminLayout.NotBelow | src/components/AdminLayout.tsx:25-73 | no item's path lies below a non-exact item listed before it |
| AdminLayout.Layout.constructor | src/components/AdminLayout.tsx:14 | the sidebar starts closed |
| AdminLayout.Layout.OpenSidebar | src/components/AdminLayout.tsx:164 | the sidebar opens |
| AdminLayout.Layout.CloseSidebar | src/components/AdminLayout.tsx:87 | the sidebar closes |
| AdminLayout.Layout.HandleLogout | src/components/AdminLayout.tsx:76-79 | the session is cleared first, then the login page is shown |
| Text.ToLower | src/components/AdminDashboard.tsx:125-133 | same length, each character mapped to lower case |
| Text.TrimStart | src/components/TrackOrderPage.tsx:16 | a suffix of the input, starting with non-whitespace, with only whitespace dropped |
| Text.TrimEnd | src/components/TrackOrderPage.tsx:16 | a prefix of the input, ending with non-whitespace, with only whitespace dropped |
| Text.Trim | src/components/TrackOrderPage.tsx:16 | a slice of the input with non-whitespace ends, with only whitespace before and after it in the input |
| Text.BetweenBlanks | src/components/TrackOrderPage.tsx:16 | a slice with only whitespace before and after it lies between a blank prefix and a blank suffix |
| Text.BlankRange | src/components/TrackOrderPage.tsx:16 | positions holding only whitespace form a blank slice |
| Text.TrimEmptyIffBlank | src/components/TrackOrderPage.tsx:16 | the trimmed value is empty iff the value is all whitespace |
| Text.ContainsIffOccurs | src/components/AdminDashboard.tsx:125-133 | the substring test holds iff the term occurs at some position |
| Text.NatToDecimal | src/components/HomePage.tsx:108 | a decimal numeral without leading zeros that denotes the number |
| Text.DecimalLength | src/components/HomePage.tsx:108 | numbers below 10000 have at most four digits |
| Text.LexTotal | src/components/AdminDashboard.tsx:159-163 | any two strings are ordered one way or the other |
| Text.LexTrans | src/components/AdminDashboard.tsx:159-163 | string order is transitive |
| Text.PadStart | src/components/HomePage.tsx:108 | the string right-aligned in the width, filled on the left |
| Text.LeadingZeros | src/components/HomePage.tsx:108 | leading zeros do not change a numeral's value |
| Text.ZerosValue | src/components/HomePage.tsx:108 | a string of zeros denotes 0 |

## Left out

- `src/services/api.ts` transport: uploads, price requests, order submission, payment verification and the admin requests are not modelled; their replies are method parameters. The server's own pricing is not part of this model.
- Authentication, routing, the landing, summary, receipt display and PDF viewer pages, and the receipt's HTML rendering and download.
- Dates: the receipt's date text is left out; the dashboard's midnight cut-offs are parameters, not computed from a clock.
- Floating point: money is whole cedis, `toFixed` formatting is left out, and `FileUtils.FileSizeUnit` chooses the unit but not the scaled, rounded number.
- Timers: the 600 ms estimator delay, the 400 ms lookup delay and the 2 s print-confirmation delay are immediate steps. The print queue's update, run from that timer, uses the jobs as they were when printing started; the model reads the current jobs.
- `window.confirm` answers and the outcome of the browser print dialog are parameters. A print frame that never loads is not modelled.
- Awaited requests: every request and its reply are one step, so replies that arrive late or out of order are not modelled. The effect of this:
  - AdminDashboard.Dashboard.FetchOrders: the fetch at mount and the five-minute refresh (src/components/AdminDashboard.tsx:233-238) run the first render's `fetchOrders`. Its `applyFilters` call (line 39) therefore reads the initial filters and sorting (lines 21-31). A fetched reply is shown under the all/all/empty filters, newest first, whatever filters are staged, until the next filter or sort change rebuilds the view. The contract instead states the view under the current filters.
  - PrintingForm.Form.UpdatePrice: a price reply that arrives after the file was cleared (src/components/PrintingForm.tsx:129-138), or after a newer request was sent, still sets the breakdown (line 88). The model lets a reply set it only while a file is present, and only as the reply to the latest request.
- The dashboard's auto-refresh interval and its polling are not modelled; `viewPdf` and the dashboard's own `printDocument` are left out.
- AdminDashboard.SortOrders: the comparator's branch for values of mixed type is not modelled (every column yields keys of one kind); `localeCompare` is code-unit lexicographic order, not locale collation; the array is sorted as a value, not in place.
- AdminDashboard.SearchOk: every order carries its customer details, so the source's guard for an order without `userInfo` (src/components/AdminDashboard.tsx:130-131) is not modelled.
- Receipt.BindingCostLookup: a plain-object lookup also finds inherited members, such as `toString`, under names outside the four keys. This is not modelled; every caller passes a binding's own name.
- Text.ToLower: ASCII case mapping only; no Unicode case folding.
- AdminLayout.LinkActive: react-router's `NavLink` matching is reduced to equality or a "/"-separated prefix; trailing slashes and case are not modelled.
- PaymentStatus.CheckOutcome: an absent success message is shown as the empty string.
- HomePage.OrderNumberText: the random draw is a parameter; the "#" the page prints before the number is not part of the text. The page draws the number while rendering (src/components/HomePage.tsx:108), so the source shows a new number on every re-render; the model fixes one draw.
- PrintingPage.CheckoutFlow: the step type misspells 'upload'; the five intended step names are modelled. Receipt viewing, saving and printing on that page, and `handlePaymentStart` (which does nothing), are left out.
- PrintQueue.JobCountLabel carries no contract of its own; its plural rule is `PrintQueue.JobNoun`.

## Findings

| source | as written | input that shows it | evidently intended | confidence | as-written member | corrected member |
|---|---|---|---|---|---|---|
| src/components/AdminLayout.tsx:173 | the mobile header title is the first navigation item whose path is a prefix of the address, ignoring the `exact` flag the sidebar honours (lines 34, 120); "Dashboard" at "/admin" prefixes every admin address | "/admin/print-queue": header "Dashboard", sidebar highlights "Print Queue" | the title names the item the sidebar highlights | medium, not executed | AdminLayout.PrintQueueTitleMismatch | AdminLayout.HighlightedTitleNamesOwnPage |
