# perpee backend core in Dafny

perpee is a price tracker. A user talks to an agent. The agent tracks product pages
on whitelisted shop domains, scrapes price and stock on a schedule, keeps a price
history and sends alerts when a price falls, reaches a target or the product comes
back in stock. When a store's page layout changes, a self-healing loop asks a
language model for new CSS selectors. A retrieval index answers product searches.

This project models that core, one Dafny module per source file:

- **Security**, **Validators**, **Sanitization**: URL validation, the domain
  whitelist, private addresses, price cleaning and rounding, and text sanitizing.
  Functions that are duplicated across security.py, sanitization.py and
  validators.py are modelled once. Sanitization reuses `Security.NormalizePrice`,
  Validators reuses Security, and StoresSeed uses `Security.StripWww`.
- **Retry**, **BlockDetection**, **RateLimiter**, **UserAgent**, **Strategies**,
  **Engine**, **Robots**: the scraper. It covers exception classification and
  back-off, block detection, per-domain token buckets, user-agent rotation, the
  JSON-LD / CSS / LLM extraction cascade, the scrape pipeline and robots.txt.
- **StoresSeed**: the seeded store table.
- **Detector**, **Regenerator**, **HealingService**, **Health**: failure
  detection, selector regeneration, the healing cycle and store health figures.
- **Repository**, **Triggers**, **Batching**, **Notifications**: data access,
  cron schedules, batch scraping and alert evaluation and delivery.
- **Guardrails**, **Agent**, **Tools**: daily token budget, request rate window,
  input limits, conversation memory and the agent's tools.
- **Search**, **RagIndex**, **Embeddings**, **Sync**: hybrid search, the vector
  store wrapper, embedding and index synchronisation.
- **AlertSchemas**, **ScheduleSchemas**, **SchemaCommon**: request validation of
  the API.
- **Models**, **Errors**, **Common**, **JsonValue**: records, error types, Python
  string helpers and JSON values.

Objects whose methods update fields (the token tracker, the rate limiters, the
batch processor, the RAG service, the index sync, the schedule table, the
notification service, the health calculator, the regenerator, the catalog of
tools) are classes. Most of their methods state their new state against pure
specification functions, and lemmas about those functions state what the
source promises. Where a method states only part of its effect (counters, the
records it appends), "## Left out" names it and says what is missing. Prices are exact (integer cents or reals). The clock, randomness, DNS,
the language model, HTML and XPath parsing, `json.loads` and e-mail delivery are
parameters of the operations that use them.

## Model

| member | source | states |
|---|---|---|
| Agent.TailSlice | backend/src/agent/agent.py:87-91 | Python's `s[-m:]`: the last m items for a positive m (all when fewer), the whole list for m = 0, the list without its first -m items for a negative m |
| Agent.ZeroWindowKeepsAll | backend/src/agent/agent.py:87-91 | with max_messages = 0 the written trim keeps a one-message list whole, so the window outgrows its bound |
| Agent.Trim | backend/src/agent/agent.py:87-91 | the kept window is at most max(0, max_messages) long and is a suffix of the messages (the most recent ones, in order); a list that fits is kept whole |
| Agent.TrimAgreesForPositiveWindow | backend/src/agent/agent.py:87-91 | for a positive max_messages the intended trim equals the written one |
| Agent.ConversationMemory.constructor | backend/src/agent/agent.py:66-75 | a new memory is empty and keeps the given window size |
| Agent.ConversationMemory.AddRequest | backend/src/agent/agent.py:77-80 | the request is appended at the end and the list trimmed by the written `messages[-max_messages:]`; a positive window stays within its bound, equals the intended trim and ends with the request; a window of 0 keeps the whole list with the request appended |
| Agent.ConversationMemory.AddResponse | backend/src/agent/agent.py:82-85 | the response is appended at the end and the list trimmed by the written `messages[-max_messages:]`; a positive window stays within its bound, equals the intended trim and ends with the response; a window of 0 keeps the whole list with the response appended |
| Agent.ConversationMemory.GetHistory | backend/src/agent/agent.py:93-95 | returns a copy equal to the messages |
| Agent.ConversationMemory.Clear | backend/src/agent/agent.py:97-99 | empties the buffer and keeps the window size |
| Agent.TrimEachEqualsTrimAll | backend/src/agent/agent.py:77-91 | trimming after every append equals one trim of the whole conversation: the window is always the most recent messages in their original order |
| Agent.ModelChain | backend/src/agent/agent.py:126-158 | primary, first and second fallback in that order, empty names skipped; ValueError with its message exactly when none is set |
| SchemaCommon.ErrorsOf | backend/src/api/schemas/common.py:13-16 | a field contributes no error exactly when it validated, and at most one otherwise |
| SchemaCommon.Required | backend/src/api/schemas/alerts.py:16 | a required field left out is a "missing" error; a given one passes unchanged |
| SchemaCommon.TotalPages | backend/src/api/schemas/common.py:79 | total_pages is 0 for per_page <= 0, else the ceiling of total/per_page: (total_pages - 1) * per_page < total <= total_pages * per_page |
| SchemaCommon.TotalPagesUnique | backend/src/api/schemas/common.py:79 | the ceiling bounds determine the page count uniquely |
| SchemaCommon.TotalPagesZero | backend/src/api/schemas/common.py:79 | for positive per_page and total >= 0 the count is never negative, and is 0 exactly when total is 0 |
| SchemaCommon.Paginate | backend/src/api/schemas/common.py:61-89 | items, total, page and per_page are returned unchanged; total_pages satisfies the ceiling bounds (0 for per_page <= 0) |
| SchemaCommon.PaginateValid | backend/src/api/schemas/common.py:32-38 | for valid inputs the meta satisfies PaginationMeta's field constraints |
| AlertSchemas.ParseAlertType | backend/src/api/schemas/alerts.py:17 | a recognised alert type is the one whose value is the given string |
| AlertSchemas.ParseAlertTypeValue | backend/src/api/schemas/alerts.py:17 | every alert type is recognised from its own value |
| AlertSchemas.ValidateTargetValue | backend/src/api/schemas/alerts.py:28-40 | target_price and percent_drop need a target (error "<type> requires a target_value") and a positive one ("target_value must be positive"); other types accept any target, including None; accepted values are unchanged |
| AlertSchemas.AlertTypeField | backend/src/api/schemas/alerts.py:17 | alert_type is required and must be one of the enum's values |
| AlertSchemas.ThresholdField | backend/src/api/schemas/alerts.py:22-26 | min_change_threshold defaults to 1.0 and must be >= 0 |
| AlertSchemas.TargetFieldAsWritten | backend/src/api/schemas/alerts.py:18-40 | a left-out target_value takes its default None without the validator running; a given one is validated |
| AlertSchemas.TargetField | backend/src/api/schemas/alerts.py:28-40 | the target field passes exactly when validate_target_value accepts it, with that validator's message otherwise |
| AlertSchemas.Assemble | backend/src/api/schemas/alerts.py:13-26 | the model is built exactly when every field validated; otherwise every field's error is reported in field order |
| AlertSchemas.AlertCreateAsWritten | backend/src/api/schemas/alerts.py:13-40 | a request without target_value is never target-checked, so an accepted one has no target |
| AlertSchemas.OmittedTargetAccepted | backend/src/api/schemas/alerts.py:18-40 | a target_price alert with target_value left out is accepted as written, with no target |
| AlertSchemas.ValidateAlertCreate | backend/src/api/schemas/alerts.py:13-40 | whatever is accepted carries the request's product and type, a positive target for target_price and percent_drop, and a threshold >= 0; a missing product_id or alert_type is reported |
| AlertSchemas.ValidateAlertCreateComplete | backend/src/api/schemas/alerts.py:13-40 | every request meeting those rules is accepted with its own values (threshold 1.0 when left out) |
| AlertSchemas.AgreeWhenTargetGiven | backend/src/api/schemas/alerts.py:28-40 | when the request gives target_value, the written and the corrected validation agree |
| AlertSchemas.ValidateAlertUpdate | backend/src/api/schemas/alerts.py:43-52 | every field is optional; a given threshold must be >= 0, and accepted values are unchanged |
| ScheduleSchemas.ValidateCronExpression | backend/src/api/schemas/schedules.py:12-21 | the expression is returned unchanged when croniter accepts it; otherwise "Invalid CRON expression: " followed by croniter's error |
| ScheduleSchemas.ValidateScheduleTarget | backend/src/api/schemas/schedules.py:50-57 | accepted exactly when one of product_id and store_domain is set, returning store_domain unchanged; neither and both give their two messages |
| ScheduleSchemas.StoreDomainField | backend/src/api/schemas/schedules.py:31-57 | a given store_domain is at most 255 characters and passes the target check |
| ScheduleSchemas.StoreDomainFieldAsWritten | backend/src/api/schemas/schedules.py:31-57 | a left-out store_domain defaults to None without the target check |
| ScheduleSchemas.CronField | backend/src/api/schemas/schedules.py:36-49 | cron_expression is required, at most 100 characters and accepted by croniter |
| ScheduleSchemas.Assemble | backend/src/api/schemas/schedules.py:24-40 | the model is built exactly when every field validated; otherwise the errors in field order |
| ScheduleSchemas.ScheduleCreateAsWritten | backend/src/api/schemas/schedules.py:24-57 | a request without store_domain is never target-checked, so an accepted one has no store |
| ScheduleSchemas.NoTargetAccepted | backend/src/api/schemas/schedules.py:27-57 | a request with neither product_id nor store_domain is accepted as written: a schedule with no target |
| ScheduleSchemas.ValidateScheduleCreate | backend/src/api/schemas/schedules.py:24-57 | whatever is accepted has exactly one target, a store domain of at most 255 characters, and the request's expression, at most 100 characters and accepted by croniter; a missing expression is reported |
| ScheduleSchemas.ValidateScheduleCreateComplete | backend/src/api/schemas/schedules.py:24-57 | every request with exactly one target and a good expression is accepted with its values |
| ScheduleSchemas.AgreeWhenStoreGiven | backend/src/api/schemas/schedules.py:50-57 | when the request gives store_domain, the written and the corrected validation agree |
| ScheduleSchemas.ValidateScheduleUpdate | backend/src/api/schemas/schedules.py:60-76 | a None expression passes unchecked; a given one must fit 100 characters and be accepted by croniter |
| Security.LStripC0 | backend/src/core/security.py:46 | urlparse first drops leading C0 controls and spaces: the result does not start with one |
| Security.NetlocEnd | backend/src/core/security.py:46 | the network location runs up to the first '/', '?' or '#' after "//" |
| Security.ValidateUrl | backend/src/core/security.py:26-72 | empty input is rejected; an accepted URL has scheme http or https, a non-empty netloc whose lower-cased host (port removed) matches the label pattern, and normalises to scheme://netloc+path plus "?query" only for a non-empty query, the fragment dropped |
| Security.HostOf | backend/src/core/security.py:59-61 | the host is the lower-cased netloc up to its first ':' (the port removed): no ':' and no upper-case letter remain |
| Security.StripWww | backend/src/core/security.py:93-96 | exactly one leading "www." is removed when present; otherwise the host is kept |
| Security.ExtractDomain | backend/src/core/security.py:75-96 | the domain has no port and no upper-case letter (lower-cased, port dropped, one "www." stripped) |
| Security.ValidateWhitelistedUrl | backend/src/core/security.py:99-147 | an invalid URL keeps its error; a valid one passes exactly when its domain or "www."+domain is in the whitelist (the P0 stores when none is given), else UnsupportedStoreError names the domain |
| Security.AnyRangeHolds | backend/src/core/security.py:160-168 | the range loop answers true exactly when some configured range holds the address |
| Security.PrivateIpExamples | backend/src/core/security.py:150-172 | 10.x.y.1 and 192.168.x.y are private (RFC 1918 section 3); 8.8.8.8 is not |
| Security.ResolveAndValidateUrl | backend/src/core/security.py:175-218 | an invalid URL keeps its error; a safe result is the validated URL whose every resolved address is public; a private-address result names a private address; DNS failure is the only other rejection |
| Security.FirstPrivate | backend/src/core/security.py:207-216 | the address loop is safe exactly when no resolved address is private, and otherwise reports a private address from the list |
| Security.CleanPrice | backend/src/core/security.py:314-321 | the cleaned text holds no ASCII letter, currency symbol ($€£¥) or comma |
| Security.StripIsInfix | backend/src/core/security.py:321 | stripping only removes characters: every kept character comes from the input |
| Security.DigitsOf | backend/src/core/security.py:329 | the digits of a digit part are digits only (underscores dropped) |
| Security.ParseFloat | backend/src/core/security.py:329 | float() never accepts the empty text |
| Security.RoundHalfEven | backend/src/core/security.py:333 | the nearest integer, within 0.5 of the value |
| Security.RoundCents | backend/src/core/security.py:333 | round(x, 2) gives whole cents within half a cent of x and keeps x inside [0.01, 1 000 000] when it was |
| Security.CheckedCents | backend/src/core/security.py:330-335 | a parsed amount survives exactly when it is within [0.01, 1 000 000], and then becomes whole cents within half a cent of it |
| Security.NormalizePrice | backend/src/core/security.py:301-335 | None for empty input and for any text whose cleaned, range-cut form does not parse or lies outside [0.01, 1 000 000]; otherwise a valid price in whole cents within half a cent of the parsed amount, so validate_price holds for every result |
| Security.DigitPartOfDigits | backend/src/core/security.py:329 | a non-empty digit string is a digit part for float() |
| Security.ParseFloatDecimal | backend/src/core/security.py:329 | float() reads "digits.digits" as its exact decimal value |
| Validators.ValidateUrlComplete | backend/src/scraper/validators.py:200-227 | a format error is returned as is; with the whitelist check on, a valid URL outside the P0 stores is rejected as an unsupported store naming its domain; otherwise (or with the check off) the SSRF verdict decides; a safe result always passed the format check and, with the check on, the whitelist |
| Validators.UnsupportedStoreNeedsNoDns | backend/src/scraper/validators.py:219-224 | the whitelist rejection happens before any DNS lookup: it does not depend on the resolver |
| Sanitization.SanitizeText | backend/src/scraper/sanitization.py:59-82 | empty stays empty; the result holds no control character and is empty exactly when the text held only whitespace and removed controls; it is single-spaced when not cut, and a cut result is the first 10 000 characters plus "..." |
| Sanitization.SanitizeXss | backend/src/scraper/sanitization.py:35-56 | the intended sanitize_xss (see Findings): empty stays empty; the result holds no javascript:, no on\w+\s*= handler and no <script…>…</script> block, is never longer than the cleaner's output, and equals that output exactly when it held none of them |
| Sanitization.SanitizeXssAsWritten | backend/src/scraper/sanitization.py:35-56 | sanitize_xss as written, one re.sub pass per pattern: empty stays empty; never longer than the cleaner's output, and equal to it exactly when it held none of the three patterns |
| Sanitization.MatchLen | backend/src/scraper/sanitization.py:52-54 | a match of one of the three patterns lies inside the text and starts with the pattern's fixed lead, case ignored |
| Sanitization.HandlerMatchLen | backend/src/scraper/sanitization.py:53 | a match of on\w+\s*= starts with "on" (case ignored) and a word character and ends with "=" |
| Sanitization.ScriptMatchLen | backend/src/scraper/sanitization.py:54 | a match of <script[^>]*>.*?</script> starts with "<script" and ends with "</script>", case ignored |
| Sanitization.FindNoCase | backend/src/scraper/sanitization.py:54 | the first position where "</script>" starts, case ignored (the lazy .*? stops there); None when it never starts |
| Sanitization.SubChangesIffMatch | backend/src/scraper/sanitization.py:52-54 | one re.sub pass changes the text exactly when the pattern occurs in it, and then shortens it |
| Sanitization.SubSkipsPrefix | backend/src/scraper/sanitization.py:52 | re.sub copies a prefix in which the pattern starts nowhere unchanged |
| Sanitization.XssPasses | backend/src/scraper/sanitization.py:52-54 | the three passes never lengthen the text, and leave it unchanged exactly when none of the patterns occurs |
| Sanitization.XssOnePassLeavesJavascript | backend/src/scraper/sanitization.py:52 | "java" + "javascript:" + "script:" comes out of the written sanitize_xss as "javascript:" |
| Sanitization.JavascriptPassJoins | backend/src/scraper/sanitization.py:52 | the javascript: pass deletes the inner javascript: and the halves around it meet |
| Sanitization.JavascriptPrefixSkipped | backend/src/scraper/sanitization.py:52 | no javascript: match starts inside the leading "java" of the counterexample |
| Sanitization.JavascriptDeleted | backend/src/scraper/sanitization.py:52 | the javascript: pass over "javascript:" + "script:" deletes the front match and leaves "script:" |
| Sanitization.JavascriptHasNoOtherPattern | backend/src/scraper/sanitization.py:53-54 | "javascript:" holds no event handler and no script block |
| Sanitization.JavascriptMatches | backend/src/scraper/sanitization.py:52 | "javascript:" is matched by the first pattern |
| Sanitization.Scrubbed | backend/src/scraper/sanitization.py:51-54 | repeating the passes leaves none of the three patterns, never lengthens the text, and changes it exactly when a pattern occurs |
| Sanitization.XssAgreesWhenOnePassSuffices | backend/src/scraper/sanitization.py:51-54 | the written and the intended sanitize_xss agree exactly when the single pass already left none of the patterns |
| Sanitization.WordRunLen | backend/src/scraper/sanitization.py:53 | the maximal run of \w characters that \w+ takes |
| Sanitization.SpaceRunLen | backend/src/scraper/sanitization.py:53 | the maximal run of whitespace that \s* takes |
| Sanitization.StripHtmlTags | backend/src/scraper/sanitization.py:13-32 | empty stays empty; the result is single-spaced (whitespace runs collapsed, no leading or trailing space) |
| Sanitization.RemovePunctRuns | backend/src/scraper/sanitization.py:103 | deleting runs of three or more punctuation characters leaves no such run, keeps only characters of the input and never lengthens it |
| Sanitization.RemovePunctRunsScans | backend/src/scraper/sanitization.py:103 | the deletion equals an independent left-to-right scanner that holds punctuation back and drops a held run of three or more: every other character and every shorter run is kept, in order |
| Sanitization.ScanHeldRun | backend/src/scraper/sanitization.py:103 | scanning with a run held back equals flushing that run extended by the next punctuation, then scanning the rest afresh |
| Sanitization.Truncated | backend/src/scraper/sanitization.py:106-107 | a text longer than n is cut to its first n characters followed by "...", a shorter one is unchanged |
| Sanitization.TrimProductName | backend/src/scraper/sanitization.py:103-109 | the name scanned for punctuation runs, cut at 500 with "...", then stripped; hence at most 503 characters with no surrounding whitespace |
| Sanitization.SanitizeProductName | backend/src/scraper/sanitization.py:85-109 | tags stripped, one pass of the written sanitize_xss (SanitizeXssAsWritten), punctuation runs removed (by the scanner), cut at 500 with "...", stripped; empty stays empty; hence at most 503 characters with no surrounding whitespace |
| Sanitization.ScanPlainPrefix | backend/src/scraper/sanitization.py:103 | a prefix without punctuation passes the punctuation-run removal unchanged |
| Sanitization.JavascriptTrimmed | backend/src/scraper/sanitization.py:101-109 | "javascript:" comes through the punctuation removal, the 500-character cut and strip() whole |
| Sanitization.ProductNameKeepsJavascript | backend/src/scraper/sanitization.py:85-109 | the single XSS pass reaches sanitize_product_name: "javajavascript:script:", left alone by the tag stripper and the cleaner, comes out as "javascript:", which still holds a script pattern |
| Sanitization.CoreSanitizeHtml | backend/src/core/security.py:221-244 | empty stays empty; otherwise the cleaned, whitespace-collapsed text cut at 10 000 with "..."; single-spaced when not cut |
| Sanitization.CoreSanitizeProductName | backend/src/core/security.py:273-293 | sanitize_html's result with punctuation runs removed (by the scanner), cut at 500 with "...", stripped; empty stays empty |
| Sanitization.AbsoluteImageUrl | backend/src/scraper/sanitization.py:175-179 | the stripped URL, with "https:" put in front of a protocol-relative "//" URL |
| Sanitization.SanitizeImageUrl | backend/src/scraper/sanitization.py:162-192 | None for None or empty, and for a URL that is not http(s) after the fix-up; a result is the absolute URL after one pass of the written sanitize_xss, and starts with http:// or https:// followed by a letter or digit; it may still hold a pattern that pass re-formed |
| Sanitization.SanitizeImageUrlCorrected | backend/src/scraper/sanitization.py:162-192 | sanitize_image_url with the intended sanitize_xss: the same rejections, and a result holds no script pattern |
| Sanitization.ImageUrlAgreesWhenOnePassSuffices | backend/src/scraper/sanitization.py:184-186 | the written and the corrected sanitize_image_url agree whenever the single pass leaves no pattern, and a written result that still holds one is never the corrected answer |
| Sanitization.ProtocolRelativeImageUrl | backend/src/scraper/sanitization.py:178-179 | "//host" becomes "https://host" when the cleaner leaves that alone and it holds no script pattern |
| Sanitization.PriceField | backend/src/scraper/sanitization.py:210-220 | a string price becomes normalize_price's value (None exactly when that fails, else a valid price); any other value passes through |
| Sanitization.UpcField | backend/src/scraper/sanitization.py:228-231 | the UPC keeps only ASCII letters and digits, at most 50 of them, and is None exactly when str(upc) holds none |
| Sanitization.OutField | backend/src/scraper/sanitization.py:205-238 | which keys are set (name, brand, upc only when truthy; price, original_price, image_url, currency, in_stock when present) and what each holds; name and image_url go through the written single XSS pass |
| Sanitization.SanitizeScrapedContent | backend/src/scraper/sanitization.py:195-238 | the output holds only the known keys, each exactly as OutField gives it; the call fails exactly when a field's type makes Python raise |
| Retry.DelayList | backend/src/scraper/retry.py:57 | the category's delay list, [2, 4, 8] when the table has none |
| Retry.BaseDelay | backend/src/scraper/retry.py:58 | the attempt-th delay, the last one once the attempt runs past the list |
| Retry.GetDelay | backend/src/scraper/retry.py:46-62 | the jittered delay lies within base·(1 ± jitter) |
| Retry.JitterBounds | backend/src/scraper/retry.py:61-62 | base + uniform(-base·jitter, base·jitter) stays within base ± base·jitter |
| Retry.RetryLimit | backend/src/scraper/retry.py:75-91 | no category gets more than max(max_retries, 2) retries |
| Retry.ShouldRetry | backend/src/scraper/retry.py:64-91 | never for NOT_FOUND; otherwise exactly while the attempt is below the category's budget (1 for FORBIDDEN, 2 for BLOCKED and PARSE_ERROR, max_retries for the rest) |
| Retry.CategorizeError | backend/src/scraper/retry.py:106-147 | the scraper exception types map to their categories in the order checked; only a BlockedError is BLOCKED; PARSE_ERROR exactly for the other ScraperErrors; SERVER_ERROR only for other exceptions |
| Retry.RateLimitedCategory | backend/src/scraper/retry.py:122-125 | a BlockedError mentioning "429" or, in any case, "rate" is RATE_LIMITED |
| Retry.CategorizeByText | backend/src/scraper/retry.py:133-147 | a message with "timeout" is TIMEOUT; SERVER_ERROR only when "50" occurs and "429" does not |
| Retry.MessageMentions | backend/src/scraper/retry.py:242-256 | the fallback text and the network, timeout and server-error texts name the attempt count; the fallback also names the error |
| Retry.FixedMessages | backend/src/scraper/retry.py:246-250 | the other five texts depend on neither the attempt count nor the error |
| Retry.LastCall | backend/src/scraper/retry.py:201-222 | the loop ends at the first call that succeeds or may not be retried, within the call bound, every earlier call having been retried |
| Retry.RetryRun | backend/src/scraper/retry.py:197-233 | at most max(max_retries, 2) + 1 calls; success exactly when the last call succeeded, with attempts equal to the number of calls; a failure reports the last error, its category and message, and every earlier call was retried |
| Retry.FirstCallSucceeds | backend/src/scraper/retry.py:207-211 | a call that succeeds at once is reported after one attempt |
| Retry.NotFoundIsFinal | backend/src/scraper/retry.py:216-217 | a NOT_FOUND failure ends the loop after one call |
| Retry.NoticesGrow | backend/src/scraper/retry.py:219-220 | each retry adds the notice of that call, keeping the earlier ones |
| Retry.RetryHandler.constructor | backend/src/scraper/retry.py:155-163 | the configuration given and no callbacks |
| Retry.RetryHandler.OnRetry | backend/src/scraper/retry.py:165-172 | appends the callback |
| Retry.RetryHandler.Execute | backend/src/scraper/retry.py:182-233 | the loop's result is RetryRun's, and one retry notice (attempt + 1, category, delay) went out for every retried call, in order |
| BlockDetection.MatchedPatterns | backend/src/scraper/block_detection.py:242-245 | the matched list holds exactly the family's patterns that occur in the text, in family order |
| BlockDetection.MatchesPatterns | backend/src/scraper/block_detection.py:235-246 | the flag is true exactly when some pattern occurs, which is exactly when the matched list is non-empty |
| BlockDetection.DetectFamily | backend/src/scraper/block_detection.py:286-379 | one detector: blocked exactly when some pattern of its family occurs, then with its type, its confidence and the matched patterns as indicators; otherwise the unblocked result |
| BlockDetection.DetectCaptcha | backend/src/scraper/block_detection.py:286-297 | blocked exactly on a CAPTCHA pattern, as CAPTCHA with confidence 0.9 |
| BlockDetection.DetectBotBlock | backend/src/scraper/block_detection.py:300-311 | blocked exactly on a bot-detection pattern, as BOT_DETECTION with confidence 0.85 |
| BlockDetection.DetectRateLimit | backend/src/scraper/block_detection.py:335-346 | blocked exactly on a rate-limit pattern, as RATE_LIMITED with confidence 0.9 |
| BlockDetection.DetectGeoBlock | backend/src/scraper/block_detection.py:349-360 | blocked exactly on a geo-block pattern, as GEO_BLOCKED with confidence 0.85 |
| BlockDetection.DetectAgeGate | backend/src/scraper/block_detection.py:363-379 | blocked exactly on an age-gate pattern, as AGE_GATE with confidence 0.85 |
| BlockDetection.DetectLoginRequired | backend/src/scraper/block_detection.py:314-332 | blocked exactly when a login pattern matches and the page also says it requires sign-in; the matched patterns are reported whenever a login pattern matches |
| BlockDetection.Detect403Block | backend/src/scraper/block_detection.py:249-283 | a 403 is always a block: BOT_DETECTION (0.9) when a WAF/CDN header is present, else CAPTCHA (0.95) on a CAPTCHA pattern, else ACCESS_DENIED (0.8); the indicators start with "http_403" |
| BlockDetection.DetectContent | backend/src/scraper/block_detection.py:199-232 | the content detectors in order, the first that fires wins: each reported type implies its family matched and every earlier family did not |
| BlockDetection.DetectBlockWith | backend/src/scraper/block_detection.py:136-232 | 429 and 404 win first, then a body under 100 stripped characters, then 403, then 503 when its maintenance test holds, then the content detectors; blocked exactly when one of these applies |
| BlockDetection.DetectServed | backend/src/scraper/block_detection.py:183-232 | for a page with a real body: 403 always blocks, 503 blocks as MAINTENANCE when its test holds, otherwise the content decides; never EMPTY_RESPONSE |
| BlockDetection.DetectBlockAsWritten | backend/src/scraper/block_detection.py:189-197 | as written, every 503 with a real body is MAINTENANCE ("Site under maintenance"), because the checked tuple is always truthy; blocked exactly for 429, 404, a short body, 403, 503 or a content hit |
| BlockDetection.DetectBlock | backend/src/scraper/block_detection.py:136-232 | a 503 is MAINTENANCE exactly when a maintenance pattern occurs; blocked exactly under the status, body and content conditions above |
| BlockDetection.NoHitWithoutLetters | backend/src/scraper/block_detection.py:244 | a text of digits matches no pattern that starts with a letter |
| BlockDetection.FamiliesStartWithLetters | backend/src/scraper/block_detection.py:244 | every pattern of every family starts with a letter |
| BlockDetection.Digits503 | backend/src/scraper/block_detection.py:189-197 | a 503 page of digits only is MAINTENANCE as written, but not blocked at all as intended |
| BlockDetection.LowerOfDigits | backend/src/scraper/block_detection.py:200 | lower-casing keeps a digit page all digits |
| BlockDetection.NoContentInDigits | backend/src/scraper/block_detection.py:199-232 | no content detector fires on digits |
| BlockDetection.Maintenance503Finding | backend/src/scraper/block_detection.py:189-197 | the page of one hundred zeros served with 503 shows the difference |
| BlockDetection.EvasionFor | backend/src/scraper/block_detection.py:392-455 | in the strategy table a type is retryable exactly when its action is not "fail", and has a wait exactly when its action is "wait" |
| BlockDetection.GetEvasionStrategy | backend/src/scraper/block_detection.py:382-459 | the empty strategy exactly for an unblocked result; retryable unless the type is CAPTCHA, LOGIN_REQUIRED, GEO_BLOCKED, AGE_GATE or NOT_FOUND; RATE_LIMITED and MAINTENANCE wait at least 60 seconds |
| BlockDetection.DetectedBlocksHaveStrategy | backend/src/scraper/block_detection.py:155-197 | a 429, and a 503 with a maintenance pattern, get a "wait" strategy |
| RateLimiter.Recent | backend/src/scraper/rate_limiter.py:28-29 | exactly the timestamps later than the cutoff, in order |
| RateLimiter.Oldest | backend/src/scraper/rate_limiter.py:46 | min(requests): a member no later than any other |
| RateLimiter.MaxReal | backend/src/scraper/rate_limiter.py:47 | max: one of the two and no smaller than either |
| RateLimiter.WaitFor | backend/src/scraper/rate_limiter.py:40-47 | 0 under the limit; otherwise never negative, and positive only as oldest + window − now; None (min of an empty list raising ValueError) exactly for a non-positive limit with no requests |
| RateLimiter.FullWindowRefuses | backend/src/scraper/rate_limiter.py:31-47 | once `limit` requests lie inside the window, can_request is false and the wait is positive |
| RateLimiter.RateLimitState.constructor | backend/src/scraper/rate_limiter.py:19-24 | no requests, the given limit and window |
| RateLimiter.RateLimitState.CleanOldRequests | backend/src/scraper/rate_limiter.py:26-29 | keeps exactly the timestamps after now − window, so every kept one lies inside the window |
| RateLimiter.RateLimitState.CanRequest | backend/src/scraper/rate_limiter.py:31-34 | cleans, then allows exactly when fewer than `limit` requests remain |
| RateLimiter.RateLimitState.RecordRequest | backend/src/scraper/rate_limiter.py:36-38 | appends now |
| RateLimiter.RateLimitState.WaitTime | backend/src/scraper/rate_limiter.py:40-47 | cleans, then returns WaitFor of the cleaned list |
| RateLimiter.RateLimiter.constructor | backend/src/scraper/rate_limiter.py:59-71 | a global state with the given limit and window and no store states yet |
| RateLimiter.RateLimiter.SetStoreLimit | backend/src/scraper/rate_limiter.py:73-84 | a new domain gets a fresh state with a 60-second window whatever the limiter's window; a known one only changes its limit; other stores are untouched |
| RateLimiter.RateLimiter.StoreFor | backend/src/scraper/rate_limiter.py:68-70 | the defaultdict lookup: an unknown domain gets a fresh state (limit 10, the limiter's window) |
| RateLimiter.RateLimiter.Acquire | backend/src/scraper/rate_limiter.py:86-115 | a combined wait over 30 seconds raises RateLimitError (retry_after at least 30) and records nothing after cleaning; otherwise exactly one timestamp is appended to the global and the store state; other stores are untouched |
| RateLimiter.RateLimiter.AcquireStore | backend/src/scraper/rate_limiter.py:100-115 | the store half of acquire, given the global wait |
| RateLimiter.RateLimiter.AcquireFrom | backend/src/scraper/rate_limiter.py:100-115 | with the store state in hand: grant records one timestamp in both states, refusal records none |
| RateLimiter.RateLimiter.Check | backend/src/scraper/rate_limiter.py:117-127 | allowed exactly when both the global and the store state are under their limits after cleaning; the store is not consulted once the global state refuses |
| RateLimiter.RateLimiter.GetWaitTime | backend/src/scraper/rate_limiter.py:129-139 | the larger of the global and the store wait |
| RateLimiter.Refilled | backend/src/scraper/rate_limiter.py:190 | the refilled level never exceeds capacity and never falls below the old level |
| RateLimiter.TokenBucket.constructor | backend/src/scraper/rate_limiter.py:172-184 | a full bucket, last updated now |
| RateLimiter.TokenBucket.AddTokens | backend/src/scraper/rate_limiter.py:186-191 | refills for the elapsed time, capped at capacity, and moves the update time to now |
| RateLimiter.TokenBucket.TryAcquire | backend/src/scraper/rate_limiter.py:212-226 | succeeds exactly when the refilled level covers the request, and then takes exactly that many tokens |
| RateLimiter.TokenLevelStaysInBounds | backend/src/scraper/rate_limiter.py:222-225 | a successful take leaves the level between 0 and capacity |
| UserAgent.LeastFailed | backend/src/scraper/user_agent.py:119-123 | the stable sort's first entry: the smallest index among those with the fewest failures |
| UserAgent.UserAgentManager.constructor | backend/src/scraper/user_agent.py:32-40 | an empty agent list falls back to the default list; no domain state yet |
| UserAgent.UserAgentManager.StateOf | backend/src/scraper/user_agent.py:40 | the defaultdict lookup: the recorded state or a fresh one, whose index is within the agent list |
| UserAgent.UserAgentManager.GetUserAgent | backend/src/scraper/user_agent.py:42-56 | no domain: a random agent, state untouched; a domain: the agent at its current index modulo the list, its state created when missing |
| UserAgent.UserAgentManager.Rotate | backend/src/scraper/user_agent.py:72-84 | advances the domain's index by one modulo the list and returns that agent; with two or more agents the agent changes; other domains untouched |
| UserAgent.UserAgentManager.ReportSuccess | backend/src/scraper/user_agent.py:86-97 | records the current index as the last success and zeroes its failure count only when it had one |
| UserAgent.UserAgentManager.ReportFailure | backend/src/scraper/user_agent.py:99-128 | adds one failure to the current agent; at three it switches to the least-failed agent and returns it, otherwise returns None and keeps the index |
| UserAgent.UserAgentManager.Reset | backend/src/scraper/user_agent.py:130-141 | a domain's state is dropped, or every state when no domain is given |
| Strategies.FindProduct | backend/src/scraper/strategies.py:79-113 | a found object is a product that occurs inside the JSON value; scalars hold none; an object without "@graph" that is itself a product is the answer |
| Strategies.FindInList | backend/src/scraper/strategies.py:84-89 | the first list element that holds a product answers; none does exactly when every element holds none |
| Strategies.GraphDecides | backend/src/scraper/strategies.py:95-96 | once "@graph" is present only it decides, whatever else the object holds |
| Strategies.NameText | backend/src/scraper/strategies.py:120 | sanitize_product_name of the name: fails only on a truthy non-string, and a result has at most 503 characters |
| Strategies.OfferOf | backend/src/scraper/strategies.py:150-153 | an object is the offer, an empty list gives {}, a list its first element, anything else no offer |
| Strategies.ParseOffers | backend/src/scraper/strategies.py:148-177 | only price, currency and stock change; without an offer nothing does; a new price is None or valid; currency defaults to CAD; a string availability is in stock exactly when it names an in-stock marker, a missing one is out of stock, any other keeps the default |
| Strategies.UpcOf | backend/src/scraper/strategies.py:130 | the first truthy of gtin13, gtin and sku |
| Strategies.ParseProduct | backend/src/scraper/strategies.py:115-146 | fails exactly when sanitising the name raises; a result is tagged JSON-LD, has a name, and any price is valid; without offers there is no price, it is in stock and in CAD |
| Strategies.JsonLdExtract | backend/src/scraper/strategies.py:59-77 | no scripts give None; a result is the parsed product of some script that parsed and held a product |
| Strategies.SelectFirst | backend/src/scraper/strategies.py:194-201 | the selector loop: when some selector hits, the value is the first hit's, earlier ones having missed; when none hits, a truthy value is the starting one; when nothing matched at all, the starting value |
| Strategies.SelectLoop | backend/src/scraper/strategies.py:194-201 | the loop computes SelectFirst |
| Strategies.ImageSource | backend/src/scraper/strategies.py:230-234 | src or data-src, with "https:" put in front of a "//" URL |
| Strategies.PatternScan | backend/src/scraper/strategies.py:256-258 | the pattern loop over an element's lowered text: it raises exactly when it reaches an item that is not a string before any match, and finds no match exactly when every item is a string that does not occur |
| Strategies.AvailabilityScan | backend/src/scraper/strategies.py:249-265 | the selector loop answers in stock whenever it returns; it raises exactly when some selector's element meets a raising pattern loop (or patterns that cannot be iterated) and no earlier element stopped the loop with a match or as a button |
| Strategies.ExtractAvailability | backend/src/scraper/strategies.py:243-265 | in stock whenever it returns, and always without an "availability" entry; it raises (None) when the entry is not an object or its "css" is not a list of strings, and otherwise only after one of the css selectors found an element |
| Strategies.CssResult | backend/src/scraper/strategies.py:185-241 | no selectors give None; a raising _extract_availability gives None; a result has a truthy name and price, is in stock and tagged CSS, with price and name from the selector loops; well-formed entries with both truthy always give a result |
| Strategies.CssExtract | backend/src/scraper/strategies.py:185-241 | the field-by-field loops, price, name, original price, availability, image, compute CssResult |
| Strategies.XPathPriceValid | backend/src/scraper/strategies.py:294-300 | a price the XPath loop settles on is a valid price |
| Strategies.XPathResult | backend/src/scraper/strategies.py:273-318 | None without selectors, without an "xpath" entry or when the page does not parse; a result has a name and a valid price and is tagged XPath |
| Strategies.XPathExtract | backend/src/scraper/strategies.py:273-318 | the price loop and the name loop compute XPathResult |
| Strategies.LlmExtract | backend/src/scraper/strategies.py:338-348 | the synchronous LLM strategy never extracts |
| Engine.BlockToException | backend/src/scraper/engine.py:352-368 | NOT_FOUND becomes NotFoundError, EMPTY_RESPONSE and MAINTENANCE become NetworkError, every other block type (and an unlisted one) BlockedError |
| Engine.CategorizeError | backend/src/scraper/engine.py:370-386 | each scraper exception type maps to its own error type; every other exception is NETWORK_ERROR; PRICE_VALIDATION and STRUCTURE_CHANGE never arise here |
| Engine.AttemptErrorCategory | backend/src/scraper/engine.py:370-386 | an exception one attempt can raise ends as NETWORK_ERROR, BLOCKED, NOT_FOUND or PARSE_FAILURE |
| Engine.MaintenanceException | backend/src/scraper/engine.py:352-386 | a maintenance block raises NetworkError("Site under maintenance"), filed as NETWORK_ERROR |
| Engine.ServedMaintenance | backend/src/scraper/engine.py:286-292 | the engine runs detect_block as written: a 503 page with a real body is a maintenance block whatever it says, raised as NetworkError("Site under maintenance") (NETWORK_ERROR) and recorded in a batch as "Blocked: Site under maintenance" |
| Engine.ZerosServedMaintenance | backend/src/scraper/engine.py:286-292 | a page of one hundred zeros served with 503 is treated as a site under maintenance |
| Engine.BlockedPageCategory | backend/src/scraper/engine.py:352-386 | a 404 page ends as NOT_FOUND, an empty or maintenance page as NETWORK_ERROR, an age gate as BLOCKED |
| Engine.StrategyResult | backend/src/scraper/engine.py:337-343 | one strategy's answer on the page (the LLM one skipped without a client) is tagged with that strategy |
| Engine.Answers | backend/src/scraper/engine.py:114-119 | the answers of the strategies in the engine's order, JSON-LD, CSS, XPath, LLM |
| Engine.FirstUsableOfPicks | backend/src/scraper/engine.py:337-350 | the loop's answer is None exactly when no answer has a name and a price, and otherwise the first answer that has both |
| Engine.WaterfallPicksFirst | backend/src/scraper/engine.py:330-350 | the waterfall is None exactly when no strategy finds a name and a price; otherwise it is the answer of the first strategy, in the engine's order, that does |
| Engine.FirstOfFour | backend/src/scraper/engine.py:337-350 | over four answers, the last unusable: the first usable of the other three, or None |
| Engine.WaterfallCascade | backend/src/scraper/engine.py:114-119 | the waterfall is JSON-LD if usable, else CSS if usable, else XPath if usable, else None: the LLM strategy never answers |
| Engine.WaterfallAnswer | backend/src/scraper/engine.py:315-350 | a product has a name and a price and names JSON-LD, CSS or XPath; a usable JSON-LD answer always wins; a CSS product means JSON-LD had none; an XPath product means neither JSON-LD nor CSS had one; without selectors only JSON-LD can answer |
| Engine.Extract | backend/src/scraper/engine.py:315-350 | the loop over the strategies, skipping the LLM one without a client and returning the first answer with a name and a price, computes the waterfall |
| Engine.DoScrape | backend/src/scraper/engine.py:238-313 | a failed crawl raises NetworkError("Crawl failed: …"); a page that detect_block, as written, calls blocked raises its block's exception, so every 503 page with a real body raises NetworkError("Site under maintenance"); an unblocked page succeeds exactly when the waterfall with the store's selectors finds a product, and then carries that product, this URL, domain and status; otherwise ParseError |
| Engine.Unblocked | backend/src/scraper/engine.py:286-310 | _do_scrape after the crawl: the block decides first; an unblocked page succeeds exactly when the waterfall finds a product, and carries it |
| Engine.ExtractPage | backend/src/scraper/engine.py:295-310 | success exactly when the waterfall finds a product, which the result carries with its strategy; otherwise ParseError("Failed to extract product data from page") |
| Engine.CheckUrl | backend/src/scraper/engine.py:157-161 | an accepted URL is the validated one; a URL that fails validation is refused |
| Engine.RetryKeepsAttempts | backend/src/scraper/engine.py:216-236 | the retry run over _do_scrape either holds a successful result or ends in an exception one attempt can raise |
| Engine.ScraperEngine.constructor | backend/src/scraper/engine.py:89-134 | keeps the configuration and the collaborators given |
| Engine.ScraperEngine.RunAttempts | backend/src/scraper/engine.py:219 | the retry handler's run over the attempts |
| Engine.ScraperEngine.ScrapeWithRetry | backend/src/scraper/engine.py:208-236 | success returns the attempt's result with the total attempt count and reports success to the user-agent manager; failure returns the categorised error with the retry message and attempt count and reports failure |
| Engine.ScraperEngine.Admit | backend/src/scraper/engine.py:178-186 | sets the store's rate limit from its seed entry, then acquires; a refusal asks to retry after at least 30 seconds |
| Engine.ScraperEngine.AdmitWith | backend/src/scraper/engine.py:180-186 | the same, once the seed entry is known |
| Engine.ScraperEngine.Attempts | backend/src/scraper/engine.py:188-192 | with retries off a single attempt for this URL and domain, succeeding only on a page the written detect_block lets through and failing on a blocked one with that block's category |
| Engine.ScraperEngine.SingleAttempt | backend/src/scraper/engine.py:191-192 | one _do_scrape whose exception becomes a failed result of a network, block, not-found or parse category; a page the written detect_block blocks (every 503 with a real body among them) fails with its block's category; success only on a page it lets through |
| Engine.ScraperEngine.Scrape | backend/src/scraper/engine.py:136-206 | a refused URL fails as NETWORK_ERROR with no domain, touching neither rate limiter nor robots cache; a failure carries the validated URL and its domain; ROBOTS_BLOCKED only when robots.txt is respected; success only for an accepted URL with name and price; the elapsed time is always reported |
| Engine.ScraperEngine.ScrapeChecked | backend/src/scraper/engine.py:163-195 | the pipeline after validation: robots.txt, rate limit, attempts |
| Engine.ScraperEngine.Admitted | backend/src/scraper/engine.py:178-195 | the pipeline after robots.txt: never ROBOTS_BLOCKED |
| Engine.ScraperEngine.ScrapeBatch | backend/src/scraper/engine.py:392-509 | one result per URL in input order; every success has a name and a price; above two URLs each entry is the crawl's entry for its URL |
| Engine.ScraperEngine.ScrapeEach | backend/src/scraper/engine.py:413-414 | two URLs or fewer: scrape on each in turn, one result each |
| Engine.ScraperEngine.ScrapeAppend | backend/src/scraper/engine.py:414 | appends one scrape result, keeping the earlier ones |
| Engine.ScraperEngine.ProcessCrawls | backend/src/scraper/engine.py:444-507 | one entry per URL and crawl, in input order |
| Engine.ScraperEngine.ProcessCrawled | backend/src/scraper/engine.py:445-507 | a missing or failed crawl is NETWORK_ERROR; a page the written detect_block blocks (every 503 with a real body among them) is BLOCKED with "Blocked: " and the details; otherwise the crawled page's entry |
| Engine.ScraperEngine.CrawledPage | backend/src/scraper/engine.py:459-507 | a blocked page fails as BLOCKED with "Blocked: " and the details; an unblocked page succeeds exactly when the waterfall with the store's selectors finds a product, and carries it; other failures are PARSE_FAILURE |
| Engine.ScraperEngine.ExtractCrawled | backend/src/scraper/engine.py:476-507 | success exactly when the waterfall finds a product, which the result carries; otherwise PARSE_FAILURE |
| Robots.CacheKey | backend/src/scraper/robots.py:64-67 | scheme://netloc of the URL |
| Robots.RobotsUrl | backend/src/scraper/robots.py:59-62 | the cache key followed by "/robots.txt" |
| Robots.SameOriginSameRobots | backend/src/scraper/robots.py:59-67 | URLs of one origin share cache entry and robots.txt location |
| Robots.DelayOf | backend/src/scraper/robots.py:147-154 | a zero crawl delay counts as none; any other is kept |
| Robots.RobotsHandler.constructor | backend/src/scraper/robots.py:46-57 | the time to live given and an empty cache |
| Robots.RobotsHandler.Check | backend/src/scraper/robots.py:110-169 | disabled: allowed, cache untouched; a fresh cache entry answers from its rules; a failed fetch allows without caching; a fetched file is cached with its delay and time and answers; a refusal happens only when robots.txt is respected |
| Robots.RobotsHandler.ClearCache | backend/src/scraper/robots.py:171-183 | with a domain drops exactly the keys containing it, else everything; kept entries are unchanged |
| Robots.RobotsHandler.GetCrawlDelay | backend/src/scraper/robots.py:185-198 | the cached delay of the origin, even a stale one; None when not cached |
| Robots.CachedAnswerRepeats | backend/src/scraper/robots.py:128-135 | within the time to live a second check gives the first answer whatever a fetch would give |
| StoresSeed.FindStore | backend/config/stores_seed.py:556-560 | the first entry carrying the domain; None exactly when no entry does |
| StoresSeed.GetStoreConfig | backend/config/stores_seed.py:542-560 | the seed entry for the domain with one leading "www." removed; None exactly when no seed entry has that domain |
| StoresSeed.GetStoreSelectors | backend/config/stores_seed.py:563-576 | the entry's selectors; None for an unknown domain |
| StoresSeed.StoreSupportsJsonLd | backend/config/stores_seed.py:579-592 | False without selectors; True for every seed store, whose selectors all set "json_ld" |
| StoresSeed.SeedShape | backend/config/stores_seed.py:15-486 | sixteen entries, each well formed (positive rate limit, whitelisted, active, "json_ld" set) |
| StoresSeed.FirstEntriesWellFormed | backend/config/stores_seed.py:15-246 | the first eight entries are well formed |
| StoresSeed.LastEntriesWellFormed | backend/config/stores_seed.py:247-486 | the last eight entries are well formed |
| StoresSeed.SeedDomains | backend/config/stores_seed.py:15-486 | the domains of the entries, in order |
| StoresSeed.FoundAt | backend/config/stores_seed.py:556-558 | the search stops at the first index carrying the domain |
| StoresSeed.AmazonUsesJsonLd | backend/config/stores_seed.py:19-26 | amazon.ca supports JSON-LD |
| StoresSeed.BestBuyUsesJsonLd | backend/config/stores_seed.py:552-554 | the "www." form of a seed domain is found too |
| StoresSeed.UnknownStore | backend/config/stores_seed.py:542-592 | a domain outside the seed has no entry, no selectors and no JSON-LD support |
| StoresSeed.GetStoreModels | backend/config/stores_seed.py:489-506 | one new Store per seed entry, in order, copying domain, name, flags, rate limit and selectors |
| StoresSeed.SeedStoresInto | backend/config/stores_seed.py:509-534 | counts sixteen; the table afterwards holds the old domains and every seed domain; each seed domain's row carries its entry's name, flags, rate limit and selectors, a success rate of 1.0 and both timestamps at the seeding time; rows of other domains are untouched |
| StoresSeed.UpsertEntries | backend/config/stores_seed.py:521-534 | counts one per entry; the table holds exactly the old domains plus the entries' domains; the last entry carrying a domain decides that row's fields (selectors only when not null); new rows are fresh, carry their own domain and no last success time; existing rows keep their object and last success time; rows of domains no entry names are untouched |
| StoresSeed.UpsertStep | backend/config/stores_seed.py:522-533 | one round of the loop keeps the invariant: rows decided by the last entry so far stay decided, the entry's own row takes its fields, rows stay distinct objects, and every other row is untouched |
| StoresSeed.UpsertTurn | backend/config/stores_seed.py:522-533 | one round of the loop takes the invariant Upserting from i entries to i + 1; rows already in the table stay the same objects and new rows are fresh |
| StoresSeed.UpsertRound | backend/config/stores_seed.py:522-533 | from the invariant Upserting at i, the same round with each clause after it stated on its own: key set, distinct rows, new rows' domain and empty success time, kept success times, last entries stored, unnamed rows untouched |
| StoresSeed.UpsertEntry | backend/config/stores_seed.py:523-531 | a new domain gets a fresh row copying the entry with no last success time; an existing row gets the entry's name, flags, rate limit, a success rate of 1.0, both timestamps at now, keeps its domain and last success time, and keeps its selectors when the entry's are null |
| StoresSeed.SeedDomainsDistinct | backend/config/stores_seed.py:15-486 | no two seed entries share a domain, so every seed entry is the last one for its domain |
| Detector.ClassifyError | backend/src/healing/detector.py:102-114 | None is UNKNOWN; every error type has its own category from the table |
| Detector.ClassifyInjective | backend/src/healing/detector.py:102-114 | distinct error types never share a category |
| Detector.HealableErrorTypes | backend/src/healing/detector.py:116-126 | an error type's category is healable exactly for PARSE_FAILURE, STRUCTURE_CHANGE and PRICE_VALIDATION |
| Detector.LastFailure | backend/src/healing/detector.py:148-156 | the most recent failed log of the product, none exactly when it has no failed log |
| Detector.FailureDetector.constructor | backend/src/healing/detector.py:84-100 | keeps the threshold, the attention window and the attempt cap |
| Detector.FailureDetector.UnknownNeedsFlag | backend/src/healing/detector.py:212-239 | an UNKNOWN failure needs attention only when the product is already flagged |
| Detector.FailureDetector.HealingExcludesAttention | backend/src/healing/detector.py:169-178 | no product both needs healing and needs attention |
| Detector.FailureDetector.AnalyzeProduct | backend/src/healing/detector.py:128-188 | None exactly for a missing or deleted product; the category is that of the last failed log (UNKNOWN without one); healing is needed exactly at the threshold for a healable category and a product not flagged; attention follows _check_needs_attention; never both |
| Detector.FailureDetector.FirstCandidates | backend/src/healing/detector.py:258-271 | at most `limit` products, each live, at the threshold, neither flagged nor archived and of the store; below the limit every such product is picked |
| Detector.FailureDetector.HealingAnalyses | backend/src/healing/detector.py:273-278 | only analyses of picked products that need healing, in order |
| Detector.FailureDetector.GetProductsNeedingHealing | backend/src/healing/detector.py:241-280 | the loop returns exactly the healing analyses of the picked candidates, at most `limit` of them |
| Detector.FailureDetector.RecordFailure | backend/src/healing/detector.py:282-320 | a missing product gives 0; otherwise the count goes up by one and is returned, the status becomes NEEDS_ATTENTION when attention is needed, else ERROR at the threshold, else stays; nothing else but the update time changes |
| Detector.FailureDetector.RecordSuccess | backend/src/healing/detector.py:322-348 | the count returns to 0, check and update times are now, ERROR and NEEDS_ATTENTION go back to ACTIVE; nothing else changes |
| HealingService.HealingReport.constructor | backend/src/healing/service.py:48-60 | every counter 0 and no attempts |
| HealingService.TryRegenerate | backend/src/healing/service.py:270-305 | the placeholder never succeeds and proposes no selectors |
| HealingService.Present | backend/src/healing/service.py:262-266 | the analysed products the session has, at most all of them |
| HealingService.AttemptNumber | backend/src/healing/service.py:196 | the next attempt number is at least 1 |
| HealingService.GetOr | backend/src/healing/service.py:196 | dict.get with a default |
| HealingService.FlagForAttention | backend/src/healing/service.py:307-318 | the status becomes NEEDS_ATTENTION with the update time; nothing else changes |
| HealingService.FlagAll | backend/src/healing/service.py:261-266 | every analysed product the session has is flagged, and the flagged counter grows by exactly their number; other counters untouched |
| HealingService.HealAll | backend/src/healing/service.py:250-252 | every analysed product gets a success recorded (failures back to 0) and the healed counter grows by the number of analyses |
| HealingService.Domains | backend/src/healing/service.py:135-142 | by_store's keys: each store of an analysed product the session has, once, in first-seen order |
| HealingService.Group | backend/src/healing/service.py:135-142 | by_store[domain]: the analyses of that store's products, and all of them |
| HealingService.GroupsNonEmpty | backend/src/healing/service.py:140-142 | every key of by_store has at least one analysis |
| HealingService.Known | backend/src/healing/service.py:137-138 | the analyses whose product the session has |
| HealingService.GroupsPartition | backend/src/healing/service.py:135-142 | the groups' sizes add up to the number of analyses with a known product: each lands in exactly one group |
| HealingService.GroupEmptyOutside | backend/src/healing/service.py:135-142 | a store outside the keys has no analyses |
| HealingService.GroupSizesPrefix | backend/src/healing/service.py:145 | the size sum over one more key adds that key's group |
| HealingService.GroupSizesAppend | backend/src/healing/service.py:145 | the size sum over a key list extended by one key |
| HealingService.SizesStep | backend/src/healing/service.py:142 | appending an analysis of a store adds one to that store's group only |
| HealingService.SizesSame | backend/src/healing/service.py:137-138 | an analysis the session lacks changes no group |
| HealingService.DomainOf | backend/src/healing/service.py:137-139 | each product's store, by id |
| HealingService.GroupByStore | backend/src/healing/service.py:135-142 | the grouping loop builds exactly Domains and Group |
| HealingService.SelfHealingService.constructor | backend/src/healing/service.py:76-101 | keeps the collaborators and limits, with no attempts counted |
| HealingService.SelfHealingService.ResetHealingAttempts | backend/src/healing/service.py:397-407 | drops one product's counter, or all of them |
| HealingService.SelfHealingService.HealStoreProducts | backend/src/healing/service.py:163-268 | nothing happens without the store or the first product; over the attempt cap the first product is flagged NEEDS_ATTENTION and nothing attempted; a failed page fetch fails every product without counting an attempt; otherwise one attempt is recorded under its number; a failed regeneration fails every product and, at the last allowed attempt, sets every present analysed product to NEEDS_ATTENTION; a heal sets the store's selectors to the merge of old and new and resets every analysed product; without a heal the selectors stay |
| HealingService.SelfHealingService.ApplyRegeneration | backend/src/healing/service.py:242-268 | a heal needs a successful regeneration, merges its selectors into the store's and resets every present analysed product; otherwise every product failed, the selectors stay, and at the cap every present analysed product is NEEDS_ATTENTION and counted as flagged |
| HealingService.SelfHealingService.RunHealingCycle | backend/src/healing/service.py:103-161 | the report counts the products the detector returns (at most max_products_per_run); with none every counter stays 0; healed, failed and flagged never exceed that count; with a regeneration that never succeeds nothing is healed and no store updated |
| HealingService.SelfHealingService.HealStores | backend/src/healing/service.py:144-150 | the per-store loop keeps every counter within the number of products checked |
| HealingService.SelfHealingService.HealGroup | backend/src/healing/service.py:146-150 | one store's healing moves each counter by at most the group's size; a failed regeneration heals nothing |
| HealingService.SelfHealingService.HealNext | backend/src/healing/service.py:144-150 | one round of the store loop keeps the checked count, raises the bound on the counters by the group's size, and heals nothing when no regeneration succeeds |
| HealingService.SelfHealingService.HealSingleProduct | backend/src/healing/service.py:334-395 | attempt 0 with "Product not found" for a missing product; attempt 0 with "Product does not need healing" when the analysis says so; otherwise the attempt recorded for the product (its next number, within the cap, with the regeneration's outcome) when its store exists and the page was fetched, else attempt 0 with "Healing failed"; the counter changes only with a numbered attempt |
| Regenerator.Failed | backend/src/healing/regenerator.py:41-52 | a failed RegenerationResult carries the error and no selectors |
| Regenerator.CssOf | backend/src/healing/regenerator.py:308-317 | `selectors.get(field, {}).get("css", default)`: the default for a missing field, the entry for an object, and an error (None) for any other value |
| Regenerator.ValidateSelectors | backend/src/healing/regenerator.py:296-333 | a config exactly when price, name and availability CSS lists are all truthy and every lookup succeeds; it holds those lists, the optional image and original_price, wait_for and json_ld (False by default) |
| Regenerator.ValidateSelectorsOf | backend/src/healing/regenerator.py:296-333 | a config written out as selectors validates back to itself |
| Regenerator.FirstMarker | backend/src/healing/regenerator.py:230-232 | the position of the first product marker, in list order, that the lowered page holds; None exactly when it holds none |
| Regenerator.TruncateHtml | backend/src/healing/regenerator.py:211-239 | the marker loop computes Truncated |
| Regenerator.ShortPageKept | backend/src/healing/regenerator.py:217-218 | a page within the limit passes unchanged |
| Regenerator.TruncatedFits | backend/src/healing/regenerator.py:211-239 | the truncated page fits the limit and is a contiguous piece of the page |
| Regenerator.WindowFits | backend/src/healing/regenerator.py:233-239 | the window around a marker, or the head of the page, fits the limit and is a piece of the page |
| Regenerator.PieceContained | backend/src/healing/regenerator.py:236 | a slice of the page occurs in it |
| Regenerator.ParseResponse | backend/src/healing/regenerator.py:272-294 | json.loads of the extracted text |
| Regenerator.UnfencedReply | backend/src/healing/regenerator.py:276-290 | a reply without a fence is parsed whole, stripped |
| Regenerator.JsonBlockReply | backend/src/healing/regenerator.py:279-283 | a reply that is one "```json" block parses exactly the block's inside |
| Regenerator.OpeningFenceFirst | backend/src/healing/regenerator.py:279-280 | such a reply opens with its "```json" fence |
| Regenerator.JsonBlockFirst | backend/src/healing/regenerator.py:279-283 | a reply starting with "```json" is cut right after it |
| Regenerator.FindAtStart | backend/src/healing/regenerator.py:280 | str.find of a prefix is 0 |
| Regenerator.JsonBlockAt | backend/src/healing/regenerator.py:279-283 | the block starts seven characters after the "```json" fence |
| Regenerator.ClosingFenceNext | backend/src/healing/regenerator.py:281-283 | the first fence after the opening one closes the block |
| Regenerator.StripNoEdgeSpace | backend/src/healing/regenerator.py:290 | a text without surrounding whitespace strips to itself |
| Regenerator.FenceAtEnd | backend/src/healing/regenerator.py:281 | the closing fence is found right after a body without one |
| Regenerator.PrefixContained | backend/src/healing/regenerator.py:279 | a text that starts at some position occurs in the page |
| Regenerator.ConfidenceValue | backend/src/healing/regenerator.py:180-182 | a number is its own confidence, a boolean compares as 0 or 1; any other value makes the comparison raise |
| Regenerator.SelectorRegenerator.constructor | backend/src/healing/regenerator.py:73-99 | keeps the attempt cap and the minimum confidence |
| Regenerator.SelectorRegenerator.Gate | backend/src/healing/regenerator.py:177-201 | success exactly for a parsed object with truthy selectors whose confidence (0.5 when absent) reaches the minimum; a success carries those selectors, no error and that confidence; a failure carries an error and no selectors; an unparsed or falsy reply is "Failed to parse selector response" |
| Regenerator.SelectorRegenerator.Regenerate | backend/src/healing/regenerator.py:147-209 | an exception from the model fails with its text; a reply goes through the parse and the confidence gate |
| Regenerator.SelectorRegenerator.MissingConfidenceRefused | backend/src/healing/regenerator.py:180-195 | with the default minimum of 0.7, a reply without a confidence is refused as "Low confidence: 0.50" |
| Regenerator.SelectorRegenerator.UpdateStoreSelectors | backend/src/healing/regenerator.py:335-374 | succeeds exactly for a present store whose selectors are an object or empty; then the selectors become the merge and the update time is now; otherwise nothing changes; no other field ever changes |
| Regenerator.Merged | backend/src/healing/regenerator.py:359-360 | {**existing, **new}: every new key with its new value, every other existing key kept, nothing else |
| Health.Lookup | backend/src/healing/health.py:96-98 | the store row with that domain, None exactly when no row has it |
| Health.Selected | backend/src/healing/health.py:152-156 | every store, or exactly the active ones when active_only is set |
| Health.CountsWithinTotal | backend/src/healing/health.py:283-321 | the ACTIVE count and the failing (ERROR or NEEDS_ATTENTION) count together never exceed the store's live products |
| Health.SuccessWithinTotal | backend/src/healing/health.py:340-354 | successful scrapes in the window never exceed the scrapes in it |
| Health.SumsOrdered | backend/src/healing/health.py:160-165 | the summed successes never exceed the summed scrapes |
| Health.Ratio | backend/src/healing/health.py:364 | successes over a positive number of scrapes is a rate in [0, 1] |
| Health.OverallRateBounded | backend/src/healing/health.py:171 | the overall success rate lies in [0, 1], 1.0 without scrapes |
| Health.Unhealthy | backend/src/healing/health.py:251-265 | exactly the listed stores that are not healthy, as many as the list minus the healthy ones |
| Health.NeedingAttention | backend/src/healing/health.py:267-281 | exactly the listed stores that need attention, as many as the attention count |
| Health.StoreHealthCalculator.constructor | backend/src/healing/health.py:63-79 | keeps the window, the failure threshold and the minimum scrape count |
| Health.StoreHealthCalculator.ScrapeStatsOf | backend/src/healing/health.py:323-369 | zero scrapes and rate 1.0 for a store without products; otherwise the window's scrape and success counts; rate 1.0 below min_scrapes, else successes over scrapes |
| Health.StoreHealthCalculator.CalculateStoreHealth | backend/src/healing/health.py:81-135 | None exactly for an unknown domain; otherwise the store's name and last success, total, active and failing product counts (the live products of the store, all, ACTIVE, and ERROR or NEEDS_ATTENTION), the window's total and successful scrape counts and rate; healthy exactly when the rate is at least 1 - threshold; needing attention when unhealthy or when more than the threshold's fraction of products is failing |
| Health.StoreHealthCalculator.UnhealthyNeedsAttention | backend/src/healing/health.py:115-120 | every unhealthy store needs attention |
| Health.StoreHealthCalculator.AllFailedUnhealthy | backend/src/healing/health.py:114-120 | a store with enough scrapes and no success has rate 0, is unhealthy and needs attention |
| Health.StoreHealthCalculator.HealthList | backend/src/healing/health.py:162-168 | the health of each store row that has one, in order, each rate in [0, 1] |
| Health.StoreHealthCalculator.CollectHealth | backend/src/healing/health.py:158-168 | the loop collects HealthList and sums its successes and scrapes |
| Health.StoreHealthCalculator.Accumulate | backend/src/healing/health.py:164-168 | appending one store's health keeps the running sums equal to the list's sums |
| Health.StoreHealthCalculator.HealthListStep | backend/src/healing/health.py:162-168 | one more store row adds that store's health, if any |
| Health.StoreHealthCalculator.CalculateAllHealth | backend/src/healing/health.py:137-184 | the report lists the selected stores' health; healthy plus unhealthy is the total; attention and healthy counts match the list; the overall rate is successes over scrapes, in [0, 1] |
| Health.StoreHealthCalculator.UpdateStoreHealth | backend/src/healing/health.py:186-221 | true exactly for a known store, whose success rate becomes the computed one and whose update time is now; no other store's rate or time changes |
| Health.StoreHealthCalculator.UpdateAllHealth | backend/src/healing/health.py:223-249 | returns the number of selected stores; each selected store now has its window's success rate and the update time, every other store keeps both, and no name, domain, active flag or last success changes |
| Health.StoreHealthCalculator.UpdateRows | backend/src/healing/health.py:245-247 | every row of the loop gets its window's success rate and the update time; stores outside the rows keep theirs |
| Health.StoreHealthCalculator.UpdateRow | backend/src/healing/health.py:246-247 | the row, looked up by its domain, gets its window's success rate and the update time; no other store changes and the scrape figures stay the same |
| Health.LookupUnique | backend/src/database/models.py:98 | with the domain as primary key, looking a row's domain up finds that row |
| Health.StoreHealthCalculator.RecordScrapeSuccess | backend/src/healing/health.py:371-397 | a known store's last success and update time become now; every other store is unchanged |
| Repository.UpdateAttributes | backend/src/database/repository.py:67-79 | the record keeps exactly its own attributes; each takes the data's value when given, unknown keys are ignored; updated_at, when the record has one, becomes now |
| Repository.SoftDelete | backend/src/database/repository.py:82-90 | a record without deleted_at is unchanged; otherwise deleted_at (and updated_at, if present) become now and nothing else changes |
| Repository.Visible | backend/src/database/repository.py:50-52 | when filtering, every kept row is live and every live row is kept; otherwise all rows |
| Repository.VisibleOne | backend/src/database/repository.py:50-52 | one row is kept exactly when nothing is filtered or it is live |
| Repository.VisibleAppend | backend/src/database/repository.py:50-52 | the rows kept from a + b are those kept from a followed by those kept from b: with VisibleOne, the filter keeps the live rows in table order, each as often as it occurs |
| Repository.GetAll | backend/src/database/repository.py:39-56 | the query's rows in table order (only live ones for a model with deleted_at unless include_deleted), from position max(skip, 0) on: min(limit, what remains) of them, or all that remain for a negative limit, as SQLite reads OFFSET and LIMIT |
| Repository.UpsertStore | backend/src/database/repository.py:116-135 | a new domain is inserted as given; an existing store keeps its domain, takes every new field that is not None, keeps the others, and gets updated_at now |
| Repository.IncrementProductFailures | backend/src/database/repository.py:197-208 | the failure count grows by exactly one; the status becomes NEEDS_ATTENTION once the count reaches 3 and is otherwise unchanged; updated_at is now; nothing else changes |
| Repository.ResetProductFailures | backend/src/database/repository.py:211-225 | the count is 0, the status ACTIVE, last_checked_at and updated_at now; nothing else changes |
| Triggers.ValidateCron | backend/src/scheduler/triggers.py:55-98 | valid exactly when the stripped expression has five fields and croniter parses it; a wrong field count gives "Expected 5 fields, got N"; a valid result has the first run and the hours between the first two runs; an invalid one has an error and neither |
| Triggers.Verdict | backend/src/scheduler/triggers.py:67-98 | the same verdict, given the field count and croniter's answer |
| Triggers.ValidateCronWithMinimum | backend/src/scheduler/triggers.py:101-129 | an invalid result passes through unchanged; a valid one is refused exactly when its interval is truthy and below min_hours, with an error containing "below minimum" and the interval kept; otherwise it passes through unchanged |
| Triggers.AcceptedIntervalMeetsMinimum | backend/src/scheduler/triggers.py:121-129 | an accepted expression whose first two runs differ runs at least min_hours apart |
| Triggers.LatestWhere | backend/src/scheduler/triggers.py:222-246 | the most recently created row the filter keeps, None exactly when it keeps none |
| Triggers.GetEffectiveSchedule | backend/src/scheduler/triggers.py:167-219 | an unknown product gets the system default "0 6 * * *"; product level exactly when a live schedule targets the product, store level exactly when none does but a live store-wide schedule targets its store (the newest in each case), else the system default; a known product's next run is computed from the chosen cron |
| Triggers.NewestProductScheduleWins | backend/src/scheduler/triggers.py:222-232 | a product schedule created after all others is the one chosen |
| Triggers.ScheduleTable.constructor | backend/src/scheduler/triggers.py:249-294 | the table starts with the given rows |
| Triggers.ScheduleTable.Position | backend/src/scheduler/triggers.py:311-313 | the first row with the id, None exactly when there is none |
| Triggers.ScheduleTable.CreateSchedule | backend/src/scheduler/triggers.py:249-294 | raises when neither product nor store is given, or with "Invalid CRON expression: " and the error when the cron fails validation (with the minimum when asked); otherwise appends one active, live schedule with those targets, its next run and created now, and nothing else changes |
| Triggers.ScheduleTable.UpdateScheduleNextRun | backend/src/scheduler/triggers.py:297-327 | false and no change for an unknown id; otherwise only that row changes: last run now, next run from its cron, updated now |
| Triggers.PositionIn | backend/src/scheduler/triggers.py:311-313 | the first row with the id, None exactly when there is none |
| Triggers.DescribeWith | backend/src/scheduler/triggers.py:330-383 | "Invalid schedule" unless five fields; the four fixed texts for the four fixed expressions; otherwise "Custom schedule" exactly when weekday, day and month are "*" and minute or hour is "*", else a text opening with the time and naming the weekday (by name when the number has one, else "on day"), day and month pieces that apply |
| Triggers.PiecesDescribed | backend/src/scheduler/triggers.py:356-383 | a non-empty piece list joins into a text that is not "Custom schedule", starts with the first piece and contains every piece that applies |
| Triggers.PiecesListed | backend/src/scheduler/triggers.py:356-378 | the piece list is empty exactly for an unremarkable expression and holds each piece that applies, the time first |
| Triggers.JoinStart | backend/src/scheduler/triggers.py:383 | joining starts with the first piece and cannot be "Custom schedule" |
| Triggers.DescribeCron | backend/src/scheduler/triggers.py:330-383 | as written: a numeric weekday d is named by the d-th of Mon..Sun; "Invalid schedule" unless five fields |
| Triggers.DescribeCronCorrected | backend/src/scheduler/triggers.py:364-368 | corrected: defined for every expression; a numeric weekday d up to 7 is named by croniter's numbering, d mod 7 in Sun..Sat, so 0 and 7 are Sunday |
| Triggers.DayNamedModSeven | backend/src/scheduler/triggers.py:364-368 | day 7 is a second name for Sunday, days 0-6 keep their croniter names |
| Triggers.FiveFields | backend/src/scheduler/triggers.py:340 | five single-spaced fields split back into those fields |
| Triggers.ThreeFields | backend/src/scheduler/triggers.py:340 | three single-spaced fields split back into those fields |
| Triggers.SundayDescribedAsMonday | backend/src/scheduler/triggers.py:351-368 | as written, "0 7 * * 0" is described as on Mon while "0 6 * * 0" is "Weekly on Sunday", and croniter's day 0 is Sunday |
| Triggers.SevenZeroAsWritten | backend/src/scheduler/triggers.py:364-368 | as written, "0 7 * * 0" names Monday |
| Triggers.SixOnDayDescribed | backend/src/scheduler/triggers.py:351-354 | both versions give the fixed weekly texts for "0 6 * * 0" and "0 6 * * 1" |
| Triggers.CorrectedAgreesWithWeeklyTexts | backend/src/scheduler/triggers.py:351-368 | corrected, day 0 reads Sunday and day 1 Monday, matching the fixed weekly texts |
| Triggers.SevenCorrected | backend/src/scheduler/triggers.py:364-368 | corrected, "0 7 * * 0" names Sunday and "0 7 * * 1" Monday |
| Triggers.SevenOnDay | backend/src/scheduler/triggers.py:340-354 | "0 7 * * d" splits into its five fields and is none of the fixed expressions |
| Triggers.OneDigitDay | backend/src/scheduler/triggers.py:366-367 | "0" and "1" are digit strings worth 0 and 1 |
| Triggers.NotFixedAt | backend/src/scheduler/triggers.py:347-354 | an expression with hour 7 is none of the fixed ones |
| Triggers.SixOnDay | backend/src/scheduler/triggers.py:340-354 | "0 6 * * d" splits into its five fields |
| Triggers.GetPresetSchedule | backend/src/scheduler/triggers.py:391-420 | the preset for exactly the four known names, None otherwise |
| Triggers.PresetTextsMatchDescriptions | backend/src/scheduler/triggers.py:391-408 | the daily_morning and weekly presets' descriptions are describe_cron of their own cron |
| Triggers.MorningText | backend/src/scheduler/triggers.py:347-348 | describe_cron of "0 6 * * *" is "Daily at 6:00 AM UTC" |
| Triggers.WeeklyText | backend/src/scheduler/triggers.py:353-354 | describe_cron of "0 6 * * 1" is "Weekly on Monday at 6:00 AM UTC" |
| Batching.Session.constructor | backend/src/scheduler/batching.py:227-268 | the session starts with no scrape logs and no price history |
| Batching.ThreeFailuresMeanError | backend/src/scheduler/batching.py:272-283 | three failures in a row from any count raise the count by three and leave the product in ERROR, and a fourth keeps it there |
| Batching.ProcessResult | backend/src/scheduler/batching.py:205-283 | appends exactly one scrape log; "success" exactly when the result succeeded with a product, then the product is refreshed from it; otherwise "failed", the failure count goes up with ERROR from 3, details and history untouched; identity fields never change and last_checked_at and updated_at are now |
| Batching.ApplySuccess | backend/src/scheduler/batching.py:237-270 | price, original price and stock come from the scrape, failures reset to 0, missing details filled, a history row added when the price moved; identity fields unchanged |
| Batching.FillDetails | backend/src/scheduler/batching.py:251-256 | name, brand and image are taken from the scrape only when the scrape has one and the product has none; nothing else changes |
| Batching.RecordPrice | backend/src/scheduler/batching.py:261-268 | adds one history row with the new price, original price and stock exactly when there was no old price or it moved by more than 0.01 |
| Batching.ApplyFailure | backend/src/scheduler/batching.py:272-283 | failures go up by one, the status becomes ERROR from 3 and is otherwise kept; the scraped details are untouched |
| Batching.BatchesCover | backend/src/scheduler/batching.py:151-152 | the slices products[i:i + batch_size] together are the whole list, every slice but the last of full size |
| Batching.Succeeded | backend/src/scheduler/batching.py:160-165 | the successes among the first n results are at most n |
| Batching.BatchTally | backend/src/scheduler/batching.py:151-172 | a raising batch scrape fails the whole batch; one result per URL gives as many successes as successful results and the rest failed; nothing is skipped |
| Batching.TallyFrom | backend/src/scheduler/batching.py:151-172 | the batches from position i are the batch at i followed by the rest |
| Batching.TallyStep | backend/src/scheduler/batching.py:151-172 | adding one batch's counts keeps the running counts plus the remaining batches equal to the total |
| Batching.TallyFront | backend/src/scheduler/batching.py:151-152 | the tally is the first batch's counts plus the rest's |
| Batching.TallyAccounts | backend/src/scheduler/batching.py:151-172 | with one result per URL, successes plus failures equal the number of URLs and nothing is skipped |
| Batching.AllRaisedAllFailed | backend/src/scheduler/batching.py:169-172 | when every batch scrape raises, every product is counted failed |
| Batching.Logged | backend/src/scheduler/batching.py:160-161 | pairing the first n results with products writes n logs, the k-th from the k-th product's id and the k-th result |
| Batching.LogsStep | backend/src/scheduler/batching.py:151-172 | the logs written so far plus those of the batches still to come stay equal to the whole run's logs |
| Batching.OneLogPerProduct | backend/src/scheduler/batching.py:151-172 | when the scraper never raises and answers one result per URL, an active store's run writes exactly one log per product, in product order: the logs' product ids are the products' ids |
| Batching.AnsweredAll | backend/src/scheduler/batching.py:151-158 | a scraper that never raises and answers one result per URL answers every batch of the run in full |
| Batching.LogIdsFrom | backend/src/scheduler/batching.py:151-172 | when every batch is answered in full, the logs' product ids from position i on are the ids of the products from i on |
| Batching.RunLogIdsStep | backend/src/scheduler/batching.py:157-172 | a fully answered batch logs its own products, in order, before the logs of the batches after it |
| Batching.TallyAtIsTally | backend/src/scheduler/batching.py:151-172 | counting batches from position i equals tallying the batches of products[i:] |
| Batching.FlagFound | backend/src/scheduler/batching.py:138-139 | a store found active carries the domain, so its row exists |
| Batching.StoreOutcomeAccounts | backend/src/scheduler/batching.py:115-193 | an inactive store skips all its products; an active one skips none and, with one result per URL, counts each product once |
| Batching.Order | backend/src/scheduler/batching.py:195-203 | the store domains in order of first appearance, each once |
| Batching.Members | backend/src/scheduler/batching.py:195-203 | a domain's group holds only products of the list, is empty exactly when no product has that domain |
| Batching.GroupsPartition | backend/src/scheduler/batching.py:195-203 | the group sizes add up to the number of products |
| Batching.NewKeyAlone | backend/src/scheduler/batching.py:202 | a product of a new domain starts a group of one |
| Batching.SizesStep | backend/src/scheduler/batching.py:202 | one more product grows its own domain's group by one and no other |
| Batching.SizesAppend | backend/src/scheduler/batching.py:195-203 | one more domain adds its group's size |
| Batching.GroupByStore | backend/src/scheduler/batching.py:195-203 | the loop builds exactly the domains in first-appearance order, each mapped to its products in order |
| Batching.GroupOne | backend/src/scheduler/batching.py:201-202 | appending one product keeps the grouping exact |
| Batching.BatchProcessor.constructor | backend/src/scheduler/batching.py:51-68 | keeps the batch size (never zero: range would raise), the delay and the health calculator |
| Batching.BatchProcessor.ProcessStoreBatch | backend/src/scheduler/batching.py:115-193 | returns the store's outcome: all skipped for an unknown or inactive store, with no log, history or counter written; otherwise the batch tally, the session gains exactly the run's scrape logs (one per product paired with a result, batch by batch, in order) and the store row's last success time becomes now; URLs, domains and store flags never change |
| Batching.BatchProcessor.ProcessActiveStore | backend/src/scheduler/batching.py:150-193 | for an active store: the batch tally, exactly the run's scrape logs appended (none when the batch size is not positive), the store row's last success time set to now, and URLs, domains and store flags unchanged |
| Batching.BatchProcessor.RecordSuccess | backend/src/scheduler/batching.py:180-181 | recording the store's success sets its row's last success time to now and changes no store flag, no scrape log and no product URL or domain |
| Batching.BatchProcessor.RunBatches | backend/src/scheduler/batching.py:151-179 | the batch loop computes the tally of the products' URLs and appends exactly the run's scrape logs for the products' ids; ids, URLs and domains never change |
| Batching.BatchProcessor.RunUrls | backend/src/scheduler/batching.py:151-179 | the batch loop over the URLs computes their tally and appends exactly the run's scrape logs, batch after batch |
| Batching.BatchProcessor.RunSlice | backend/src/scheduler/batching.py:152-172 | the slice products[lo:hi] is scraped as one batch: its counts are that batch's, the session gains that batch's logs, and no product id changes |
| Batching.BatchProcessor.ProcessProducts | backend/src/scheduler/batching.py:70-113 | no products gives all zeros; the total is the number of products; by_store holds exactly the domains, each with its store's outcome; the counters are the sums over the stores and, with one result per URL and a positive batch size, add up to the total |
| Batching.BatchProcessor.RunStores | backend/src/scheduler/batching.py:94-105 | the store loop records every store's outcome and sums them |
| Batching.BatchProcessor.SummaryAccounts | backend/src/scheduler/batching.py:94-113 | with a positive batch size and one result per URL, the summed store counters equal the number of products |
| Batching.BatchProcessor.AddStore | backend/src/scheduler/batching.py:95-101 | one store's outcome is recorded and added to the sums |
| Batching.BatchProcessor.ProcessGroup | backend/src/scheduler/batching.py:95-98 | a group's counts are its store's outcome; store flags and group URLs are unchanged |
| Batching.BatchProcessor.ProcessSingle | backend/src/scheduler/batching.py:285-314 | a product that is not ACTIVE is "skipped" and nothing changes; otherwise one scrape log is added, "success" refreshes price, stock and details and adds a history row when the price moved, "failed" counts the failure (ERROR from 3) and leaves price and history alone; last_checked_at and updated_at become now |
| Batching.BatchProcessor.RunBatch | backend/src/scheduler/batching.py:157-172 | the counts are BatchTally; a raising scrape changes no product and writes nothing; otherwise the session gains one log per product of the common prefix of products and results, in order, and each of those products is marked checked now |
| Batching.BatchProcessor.ZipResults | backend/src/scheduler/batching.py:160-167 | the zip loop applies each result of the common prefix to its product: the successes are counted, one log per pair is appended in order and each product is marked checked now |
| Batching.BatchProcessor.ZipStep | backend/src/scheduler/batching.py:160-167 | one pair of the zip: the product takes its result as ProcessResult states it (on success the found price, stock, zeroed failures, filled name, brand and image and the price-history row for a changed price; on failure one more failure, the status that follows and every other field kept), the success count and the logs grow by exactly that pair, the product is marked checked and updated now and keeps its id, URL, store, UPC, currency, canonical id and deletion time |
| Batching.BatchProcessor.ZipTurn | backend/src/scheduler/batching.py:160-167 | one turn of the zip loop keeps its invariant: the successes and logs cover one more pair, every product so far is marked checked now, and every product keeps the id, URL and store it had before the loop |
| Batching.BatchProcessor.UrlsStep | backend/src/scheduler/batching.py:151-172 | one turn of the batch loop moves past one batch and keeps both the counts and the logs written so far consistent with the whole run |
| Batching.TallyShift | backend/src/scheduler/batching.py:151-172 | adding one batch's counts to the running counts keeps them plus the tally of the later batches equal to the whole tally |
| Batching.StoresAccount | backend/src/scheduler/batching.py:94-113 | summed over the stores, the counters account for every product |
| Batching.TotalsAccount | backend/src/scheduler/batching.py:99-101 | each store accounting for its group makes the sums account for the groups |
| Batching.TotalsAppend | backend/src/scheduler/batching.py:99-101 | one more store adds its counts to the sums |
| Batching.NotEarlier | backend/src/scheduler/batching.py:94 | a domain does not appear earlier in the order |
| Batching.TotalsStep | backend/src/scheduler/batching.py:99-101 | recording a new store adds its counts |
| Batching.TotalsIgnore | backend/src/scheduler/batching.py:94-101 | entries outside the order do not count |
| Notifications.EvaluateAlert | backend/src/notifications/service.py:85-218 | an inactive alert never fires; back-in-stock fires exactly when active, in stock now and known out of stock before; otherwise nothing fires out of stock; target-price fires exactly at or below a truthy target; percent-drop exactly when the previous price is positive, the drop reaches the minimum change and the drop percent reaches the target (0 when unset); any-change exactly when the price moved by at least the minimum change |
| Notifications.LowerPriceStillTriggers | backend/src/notifications/service.py:140-185 | a lower current price never un-fires a target-price or percent-drop alert |
| Notifications.DropGrows | backend/src/notifications/service.py:158-159 | the drop percent grows as the current price falls |
| Notifications.AnyChangeSymmetric | backend/src/notifications/service.py:187-211 | an any-change alert fires the same with the two prices swapped |
| Notifications.BackInStockIgnoresPrices | backend/src/notifications/service.py:115-128 | a back-in-stock verdict does not depend on prices |
| Notifications.LatestRecent | backend/src/notifications/service.py:237-252 | the newest sent notification for the product and alert since the cutoff, None exactly when there is none |
| Notifications.IsDuplicate | backend/src/notifications/service.py:220-272 | a duplicate exactly when the newest recent sent notification for the product and alert recorded a price within 0.01 of the current one; never without a recent one |
| Notifications.StoredPriceReadBack | backend/src/notifications/service.py:332-338 | the price a payload stores is the price check_duplicate reads back |
| Notifications.NotificationService.constructor | backend/src/notifications/service.py:67-83 | the recipient is the given e-mail when truthy, else the configured one |
| Notifications.NotificationService.Deliver | backend/src/notifications/service.py:327-381 | appends one record with the payload, SENT with a sent time when delivered and FAILED with the error otherwise; the result reports the same |
| Notifications.NotificationService.SendPriceAlert | backend/src/notifications/service.py:274-381 | no recipient: fails with nothing recorded; a product without a price raises (the TypeError of formatting a missing price) with nothing recorded; a duplicate: refused with nothing recorded; otherwise one fresh record for the alert and product with the price payload, settled by the delivery, and the result reports it; a delivered alert makes the same price a duplicate afterwards |
| Notifications.NotificationService.SendBackInStock | backend/src/notifications/service.py:383-471 | no recipient: fails with nothing recorded; otherwise one record with the back-in-stock payload, no duplicate check |
| Notifications.NotificationService.SendProductError | backend/src/notifications/service.py:473-561 | no recipient: fails with nothing recorded; otherwise one record for the product and no alert |
| Notifications.NotificationService.SendStoreFlagged | backend/src/notifications/service.py:563-651 | no recipient: fails with nothing recorded; otherwise one record with product id 0 and the store's payload |
| Notifications.NotificationService.ProcessPriceChange | backend/src/notifications/service.py:653-717 | one result per firing alert; exactly the firing alerts are marked triggered at now, the others are untouched; the old records stay, at most one record per result is added, each for this product and an alert; with no recipient nothing is recorded and every result is the "No user email configured" failure |
| Notifications.NotificationService.HandleAlerts | backend/src/notifications/service.py:685-715 | the alert loop gives one result per firing alert and marks exactly those; records only grow, by at most one per firing alert, each for this product and an alert; with no recipient nothing is recorded and every result is the "No user email configured" failure |
| Notifications.NotificationService.AlertsStep | backend/src/notifications/service.py:685-715 | one alert of the loop: it is marked exactly when it fires; the results grow by one exactly when it fires; the records grow by at most one, for this product, and not at all without an email address |
| Notifications.NotificationService.HandleAlert | backend/src/notifications/service.py:686-715 | a result exactly when the alert fires, and then it is marked triggered at now; a quiet alert records nothing; a firing one with no recipient gives the "No user email configured" failure; a back-in-stock alert records its payload and reports the delivery; a price alert is refused as a duplicate with nothing recorded, or records the price payload with the old price and reports the delivery |
| Notifications.NewestIsLast | backend/src/notifications/service.py:237-270 | a sent notification just recorded at now with the same price makes the next check a duplicate |
| Notifications.FiresIsEvaluation | backend/src/notifications/service.py:677-694 | an alert fires exactly when the query selects it and evaluate_alert triggers |
| Notifications.FiringFlagsAt | backend/src/notifications/service.py:694 | the flag at j is whether alert j fires |
| Notifications.FiringFlagsAll | backend/src/notifications/service.py:694 | every flag is whether its alert fires |
| Notifications.FiringCountIsCount | backend/src/notifications/service.py:685-715 | the firing alerts are counted by their flags |
| Guardrails.Remaining | backend/src/agent/guardrails.py:67-72 | max(0, limit - usage): the budget left, never negative |
| Guardrails.AvailableMeansWithinLimit | backend/src/agent/guardrails.py:89-99 | a positive estimate is available exactly when usage plus the estimate stays within the limit |
| Guardrails.RecordLowersRemaining | backend/src/agent/guardrails.py:78-87 | recording tokens within the limit lowers the remaining budget by exactly those tokens |
| Guardrails.DailyTokenTracker.constructor | backend/src/agent/guardrails.py:46-48 | usage 0, reset at the start of the current day |
| Guardrails.DailyTokenTracker.UsageOn | backend/src/agent/guardrails.py:58-66 | usage counts as 0 once a new day has started, else the recorded usage |
| Guardrails.DailyTokenTracker.MaybeReset | backend/src/agent/guardrails.py:58-66 | a new day zeroes the usage and moves the reset time to its start; the limit never changes |
| Guardrails.DailyTokenTracker.GetRemaining | backend/src/agent/guardrails.py:67-72 | after the day check, the budget left |
| Guardrails.DailyTokenTracker.UsagePercent | backend/src/agent/guardrails.py:73-76 | usage over limit times 100; a zero limit divides by zero |
| Guardrails.DailyTokenTracker.RecordUsage | backend/src/agent/guardrails.py:78-87 | after the day check, usage grows by exactly the tokens |
| Guardrails.DailyTokenTracker.CheckAvailable | backend/src/agent/guardrails.py:89-99 | true exactly when the budget left covers the estimate |
| Guardrails.DailyTokenTracker.EnforceLimit | backend/src/agent/guardrails.py:101-118 | raises, with the remaining and requested tokens, exactly when check_available is false |
| Guardrails.DropExpired | backend/src/agent/guardrails.py:131-139 | pops timestamps older than the cutoff from the left: what stays is a suffix starting at or after the cutoff, and every dropped one was older |
| Guardrails.SortedKeptAreRecent | backend/src/agent/guardrails.py:131-139 | on a time-ordered deque, every kept timestamp is within the window |
| Guardrails.Pushed | backend/src/agent/guardrails.py:150-152 | deque(maxlen=100).append: the new time is last, a full deque loses its oldest entry, never more than 100 |
| Guardrails.PushedStaysSorted | backend/src/agent/guardrails.py:150-152 | appending a later time keeps the deque in time order |
| Guardrails.LLMRateLimiter.constructor | backend/src/agent/guardrails.py:119-130 | an empty deque with the given maximum |
| Guardrails.LLMRateLimiter.CleanupOld | backend/src/agent/guardrails.py:131-139 | drops the timestamps older than 60 seconds |
| Guardrails.LLMRateLimiter.RequestsInWindow | backend/src/agent/guardrails.py:140-145 | after cleanup, the number of timestamps left |
| Guardrails.LLMRateLimiter.CanMakeRequest | backend/src/agent/guardrails.py:146-148 | true exactly when fewer requests than the maximum remain in the window |
| Guardrails.LLMRateLimiter.RecordRequest | backend/src/agent/guardrails.py:150-152 | appends now to the bounded deque |
| Guardrails.LLMRateLimiter.EnforceLimit | backend/src/agent/guardrails.py:170-182 | allowed exactly when below the maximum; otherwise raises with retry_after int(60 - age of the oldest) + 1, at least 1 |
| Guardrails.EstimateTokens | backend/src/agent/guardrails.py:189-195 | len // 4 + 1: at least 1, four characters per token |
| Guardrails.PrefixSlice | backend/src/agent/guardrails.py:216-217 | text[:k] with Python's negative-index rule |
| Guardrails.ValidateInput | backend/src/agent/guardrails.py:197-223 | a prefix of the input: unchanged within the limit, otherwise the first 4 * max_input_tokens characters |
| Guardrails.ValidateInputSettles | backend/src/agent/guardrails.py:211-223 | truncated input estimates at most one token over the limit, and validating it again changes nothing |
| Tools.SearchLimit | backend/src/agent/tools.py:286 | min(limit, 50): the requested limit, capped at 50 |
| Tools.ListLimit | backend/src/agent/tools.py:637-643 | min(limit, 100): the requested limit, capped at 100 |
| Tools.ParseAlertType | backend/src/agent/tools.py:500-507 | AlertType(value): the type whose value is the text, None exactly when no type has it |
| Tools.CheckAlert | backend/src/agent/tools.py:499-520 | accepted exactly for a known type that, if it is target_price or percent_drop, has a positive target; the three refusals carry the invalid-type, target-required and must-be-positive messages |
| Tools.TargetOptionalForChangeAndStock | backend/src/agent/tools.py:509-520 | any_change and back_in_stock alerts are accepted with or without a target |
| Tools.SetAlert | backend/src/agent/tools.py:475-553 | an unknown product raises RecordNotFoundError; a refused check gives an unsuccessful result and creates nothing; otherwise one new active, untriggered alert with that type and target and the default 1.0 change threshold, reported with its id and the confirmation text for its type (the target price with two decimals, the drop percent with none) |
| Tools.Lowest | backend/src/agent/tools.py:404 | min(prices): a price of the list no greater than any other |
| Tools.Highest | backend/src/agent/tools.py:405 | max(prices): a price of the list no smaller than any other |
| Tools.Prices | backend/src/agent/tools.py:398 | the recorded prices, in order |
| Tools.GetPriceHistory | backend/src/agent/tools.py:358-413 | RecordNotFoundError exactly for an unknown product; otherwise one row per history record in order, with the least and greatest recorded price (None exactly for an empty history) and the product's current price |
| Tools.PriceRows | backend/src/agent/tools.py:588-596 | one row per priced product, in order |
| Tools.CompareLoop | backend/src/agent/tools.py:584-603 | the loop lists every priced product and keeps the first strictly lowest in-stock price and its store; none exactly when no product is priced and in stock |
| Tools.ComparePricesAsWritten | backend/src/agent/tools.py:577-583 | as written, an empty group passes a message the result type lacks, so the tool fails with a TypeError; a non-empty group gives the comparison |
| Tools.ComparePrices | backend/src/agent/tools.py:556-613 | corrected: an empty group gives an "Unknown" result with no prices; otherwise the first product's name, the priced rows and the lowest in-stock price with its store |
| Tools.TrackedAt | backend/src/agent/tools.py:126 | the first live product with the URL, None exactly when there is none |
| Tools.Catalog.constructor | backend/src/agent/tools.py:106-203 | the catalog holds the given products and price history |
| Tools.Catalog.ScrapeProduct | backend/src/agent/tools.py:106-203 | an invalid URL raises with validate_url's error and changes nothing; a tracked URL is answered from the table; an unknown or unlisted store is refused; only a successful scrape of a whitelisted store adds exactly one ACTIVE product and one price record, and indexes that product (index_product); every other answer leaves the index as it was |
| Tools.Catalog.Track | backend/src/agent/tools.py:124-200 | the same promise for an already-validated URL and its domain, the index included; an unsuccessful answer changes nothing |
| Tools.Catalog.Adopt | backend/src/agent/tools.py:157-198 | a successful scrape appends one ACTIVE product for the URL and domain and one price record for it, indexes the new product as Sync.Indexed states (added when its embedding succeeds, unchanged when it fails), and answers "Product is now being tracked!" |
| Tools.NewProduct | backend/src/agent/tools.py:158-172 | the new row carries the URL, domain and scraped name, prices, stock, brand and image, ACTIVE and checked now |
| Search.Conditions | backend/src/rag/search.py:315-324 | one condition per option set (a truthy store, in-stock-only, a minimum, a maximum), in that order |
| Search.RanksAscend | backend/src/rag/search.py:315-324 | appending at most one condition of each kind in order keeps them in order |
| Search.BuildWhereFilter | backend/src/rag/search.py:305-331 | None exactly when no option is set; the lone condition when there is one; otherwise "$and" of all of them in order |
| Search.AdmitsAll | backend/src/rag/search.py:305-331 | the filter admits exactly the metadata on which every condition holds |
| Search.AllHoldConcat | backend/src/rag/search.py:331 | all of two lists hold exactly when all of each holds |
| Search.AllHoldOne | backend/src/rag/search.py:328-329 | a one-condition list holds exactly when the condition does |
| Search.FilterAgreesWithFallback | backend/src/rag/search.py:214-221 | the index filter admits a product's metadata exactly when the database fallback's filters pass the product |
| Search.PrefixPattern | backend/src/rag/search.py:205-209 | a LIKE pattern of literal characters followed by `%` matches exactly the texts starting with those characters |
| Search.InfixPattern | backend/src/rag/search.py:205-209 | `%p%` with a literal p matches exactly the texts containing p |
| Search.ILikeLiteral | backend/src/rag/search.py:205-209 | for a query without `%` or `_`, name.ilike(f"%{query}%") is a substring test ignoring ASCII case |
| Search.UnderscoreMatchesAnyChar | backend/src/rag/search.py:205-209 | a `_` in the query is a wildcard: "a_b" finds "A-B", which does not contain "a_b" |
| Search.SelectedRows | backend/src/rag/search.py:202-221 | exactly the live rows whose name or brand matches the LIKE pattern "%query%" ignoring ASCII case (`%` and `_` in the query are wildcards) and that pass the filters, in table order |
| Search.Limited | backend/src/rag/search.py:223 | SQL LIMIT: a prefix, of length min(limit, n) for a non-negative limit |
| Search.SqliteFallback | backend/src/rag/search.py:184-239 | the first min(limit, n) selected rows (all of them for a negative limit), in table order, each as an unscored "sqlite" result with the row's id, name, store, price and stock |
| Search.Live | backend/src/rag/search.py:263-268 | the live product with the id, None exactly when there is none |
| Search.EnrichOne | backend/src/rag/search.py:272-301 | a hit keeps its product id and score and is marked "semantic"; with a live product it carries that row's name, store, price and stock; otherwise the stored metadata's name and store ("Unknown" when missing), its stored price (none when missing) and its stock (False when missing) |
| Search.Enriched | backend/src/rag/search.py:241-303 | fails exactly when some hit has neither a live product nor metadata; otherwise one result per hit, in order, each the hit enriched as above |
| Search.EnrichResults | backend/src/rag/search.py:241-303 | the loop computes the enriched hits |
| Search.SemanticPath | backend/src/rag/search.py:111-146 | a failed embedding is "Failed to generate query embedding: " and the error; a failed index query is its error; otherwise it succeeds exactly when every hit resolves, with the enriched hits in order |
| Search.SemanticSearch | backend/src/rag/search.py:111-146 | computes the semantic path |
| Search.SearchProducts | backend/src/rag/search.py:85-109 | with the default options when none are given: the semantic results when the semantic path succeeds, and the database fallback when it fails at any step (embedding, index query or enrichment) |
| Search.Ids | backend/src/rag/search.py:352-370 | every result's product id is among the ids |
| Search.IdsWitness | backend/src/rag/search.py:352-370 | every id belongs to some result |
| Search.IdsAppend | backend/src/rag/search.py:352-370 | the ids of a concatenation are the union |
| Search.IdsSnoc | backend/src/rag/search.py:358 | one more result adds its id |
| Search.FreshKeep | backend/src/rag/search.py:357-359 | a result whose id is new is kept |
| Search.FreshSkip | backend/src/rag/search.py:357 | a result whose id was seen is skipped |
| Search.FreshIds | backend/src/rag/search.py:352-370 | the kept results have exactly the ids not seen before |
| Search.FreshUnique | backend/src/rag/search.py:352-370 | the kept results have distinct ids, none of them seen before |
| Search.FreshFrom | backend/src/rag/search.py:356-359 | every kept result is one of the input |
| Search.FreshPrefix | backend/src/rag/search.py:356-370 | the kept results of a prefix are a prefix of the kept results |
| Search.Relabel | backend/src/rag/search.py:367 | the same results, each marked "hybrid" |
| Search.RelabelSnoc | backend/src/rag/search.py:367 | relabelling distributes over appending one result |
| Search.RelabelPrefix | backend/src/rag/search.py:367 | relabelling keeps prefixes |
| Search.RelabelIds | backend/src/rag/search.py:367 | relabelling keeps the ids |
| Search.Merged | backend/src/rag/search.py:333-372 | at most max(limit, 1) results |
| Search.MergedByPrefix | backend/src/rag/search.py:352-372 | a prefix of the new semantic results then the new relabelled database results, cut at max(limit, 1) or complete, is the merge |
| Search.AppendPrefix | backend/src/rag/search.py:364-370 | appending to a prefix keeps it a prefix |
| Search.CutInDatabase | backend/src/rag/search.py:369-370 | reaching the limit during the database loop returns the merge |
| Search.MergeResults | backend/src/rag/search.py:333-372 | the two loops compute the merge |
| Search.FillFromDatabase | backend/src/rag/search.py:364-372 | the second loop completes the merge |
| Search.FillKeep | backend/src/rag/search.py:365-368 | a kept database result is appended relabelled and its id becomes seen |
| Search.MergedUnique | backend/src/rag/search.py:333-372 | the merge never holds two results for one product |
| Search.MergedShape | backend/src/rag/search.py:333-372 | every merged result is a semantic one or a relabelled database one, and the semantic ones all come first |
| Search.MergedComplete | backend/src/rag/search.py:333-372 | with room for everything, the merge covers every id of both lists |
| Search.FreshLength | backend/src/rag/search.py:352-370 | skipping duplicates never lengthens the list |
| Search.HybridSearch | backend/src/rag/search.py:148-182 | the merge of the semantic results (none when the semantic path fails at any step) with the database fallback, at most max(limit, 1) results with distinct ids |
| RagIndex.RemoveAll | backend/src/rag/service.py:255 | str.replace(pat, ""): never longer than the text |
| RagIndex.RemoveAllAbsent | backend/src/rag/service.py:255 | a text without the pattern is unchanged by the replace |
| RagIndex.ParseIntOfIntToString | backend/src/rag/service.py:249-255 | int() reads back the decimal text of any integer |
| RagIndex.DocIdRoundTrip | backend/src/rag/service.py:249-255 | _doc_id_to_product_id inverts _product_id_to_doc_id for every id |
| RagIndex.DocIdInjective | backend/src/rag/service.py:249-251 | different products never share a document id |
| RagIndex.Stored | backend/src/rag/service.py:262-277 | what a kept value becomes: str, int, float and bool unchanged, anything else its str() |
| RagIndex.Sanitized | backend/src/rag/service.py:257-278 | exactly the keys whose value is not None, each stored as above |
| RagIndex.SanitizeMetadata | backend/src/rag/service.py:257-278 | the loop drops None values, keeps the four scalar kinds and turns other values into text |
| RagIndex.SanitizeIdempotent | backend/src/rag/service.py:257-278 | sanitising twice is sanitising once |
| RagIndex.ProductMetadataIsClean | backend/src/rag/embeddings.py:341-386 | the metadata built for a product is left unchanged by sanitising |
| RagIndex.RagService.constructor | backend/src/rag/service.py:31-83 | the collection starts empty |
| RagIndex.RagService.AddProduct | backend/src/rag/service.py:95-119 | stores the embedding, sanitised metadata and document under the product's document id; an id already present is left as it was; afterwards get_product of the id returns the new entry, or the old one when the id was already present |
| RagIndex.RagService.UpdateProduct | backend/src/rag/service.py:121-149 | an absent id changes nothing; otherwise each given part replaces the stored one, the metadata merged with the sanitised new keys |
| RagIndex.RagService.DeleteProduct | backend/src/rag/service.py:151-161 | removes exactly the product's document |
| RagIndex.RagService.GetProduct | backend/src/rag/service.py:163-188 | None exactly when the product has no document; otherwise its id, embedding, metadata and document |
| RagIndex.FirstBadId | backend/src/rag/service.py:223-225 | the first document id that is not a product id, None exactly when all are |
| RagIndex.Query | backend/src/rag/service.py:190-234 | fails with int()'s ValueError text at the first bad document id; otherwise one hit per id in order, with its product id, metadata, document and distance when returned, and score 1 - distance |
| Embeddings.BlankIsStripEmpty | backend/src/rag/embeddings.py:106 | the blank test (every character white space) agrees with `not text or not text.strip()`: stripping leaves nothing exactly then |
| Embeddings.EmbedText | backend/src/rag/embeddings.py:130-159 | a blank text raises "Cannot embed empty text"; otherwise the API's answer, its failure wrapped as "Failed to generate embedding: " and the error |
| Embeddings.NonBlank | backend/src/rag/embeddings.py:184 | the non-blank texts: only texts of the list, every non-blank one kept; a single text is kept exactly when it is not blank |
| Embeddings.NonBlankAppend | backend/src/rag/embeddings.py:184 | filtering keeps the order: the kept texts of a + b are those of a followed by those of b |
| Embeddings.NonBlankCounts | backend/src/rag/embeddings.py:184 | every non-blank text is kept as many times as it occurs |
| Embeddings.Chunks | backend/src/rag/embeddings.py:263-264 | non-empty chunks of at most MAX_BATCH_SIZE, all full but the last |
| Embeddings.ChunksCover | backend/src/rag/embeddings.py:263-264 | the chunks concatenate back to the texts, in order |
| Embeddings.ChunksAppend | backend/src/rag/embeddings.py:263-264 | a chunk's worth after whole chunks adds exactly one chunk |
| Embeddings.CombinedSums | backend/src/rag/embeddings.py:263-278 | when every chunk succeeds, the result has all chunks' embeddings and the sum of their tokens |
| Embeddings.EmbedChunked | backend/src/rag/embeddings.py:280-306 | the chunk loop computes the combined answer |
| Embeddings.ChunkStep | backend/src/rag/embeddings.py:286-287 | one more loop step adds the slice texts[i:i + MAX_BATCH_SIZE] as the next chunk |
| Embeddings.WholeChunks | backend/src/rag/embeddings.py:286-287 | each slice is non-empty and at most MAX_BATCH_SIZE long, ending at a chunk boundary or the end |
| Embeddings.CombinedSnoc | backend/src/rag/embeddings.py:288-295 | one more chunk appends its embeddings, adds its tokens and takes its model, or fails with its error |
| Embeddings.PrefixFailureStops | backend/src/rag/embeddings.py:286-295 | once a chunk fails, the whole call fails with that error |
| Embeddings.ChunksOfPrefix | backend/src/rag/embeddings.py:286-287 | the chunks of a prefix of whole chunks are a prefix of the chunks |
| Embeddings.EmbedBatch | backend/src/rag/embeddings.py:215-255 | an empty list raises "Cannot embed empty text list"; only blank texts raise "All texts are empty"; up to MAX_BATCH_SIZE non-blank texts make one call; more are chunked |
| Embeddings.SmallBatchIsOneChunk | backend/src/rag/embeddings.py:237-238 | at most MAX_BATCH_SIZE texts form a single chunk |
| Embeddings.DocumentParts | backend/src/rag/embeddings.py:329-336 | the name first, then one part per truthy brand, truthy store and given price |
| Embeddings.ProductDocument | backend/src/rag/embeddings.py:309-338 | the name, then " \| Brand: <brand>" when the brand is truthy, " \| Store: <store>" when the store is truthy and " \| Price: <currency> <price to 2 places>" when the price is given, in that order |
| Embeddings.ProductMetadata | backend/src/rag/embeddings.py:341-386 | always product_id, name, store_domain and in_stock; current_price exactly when given; brand and upc exactly when truthy; every value a plain scalar |
| Sync.SyncRouteTable | backend/src/rag/sync.py:285-317 | deleted (flag or deleted_at) means delete; else new means add; else a reported name, brand or store change means re-embed (store through update_metadata); else a metadata update |
| Sync.KeptTransitive | backend/src/rag/sync.py:351-397 | keeping every existing document is transitive |
| Sync.AddStep | backend/src/rag/sync.py:363-368 | add_product keeps every existing document and leaves the product's one present |
| Sync.RemovedAllPrefix | backend/src/rag/sync.py:411-413 | one more removal takes out one more document id |
| Sync.RemovedAllIsMinus | backend/src/rag/sync.py:399-415 | removing one id after another removes exactly their documents |
| Sync.IndexSync.constructor | backend/src/rag/sync.py:43-58 | keeps the index |
| Sync.IndexSync.IndexProduct | backend/src/rag/sync.py:72-129 | an "add" result, successful exactly when the document embeds, with the token message or the error; on success a product not yet indexed is stored with its embedding, sanitised metadata and document, an indexed one is left alone; a failure changes nothing |
| Sync.IndexSync.ReembedProduct | backend/src/rag/sync.py:192-251 | a "re_embed" result, successful exactly when the document embeds; then an indexed product gets the new embedding, merged metadata and new document; a failure changes nothing |
| Sync.IndexSync.UpdateMetadata | backend/src/rag/sync.py:131-190 | the operation MetadataRoute picks: on the re-embed route success exactly when the document embeds and the index is as Reembedded says; otherwise "Metadata updated", the product's entry takes merged metadata and keeps embedding and document, and nothing else changes |
| Sync.IndexSync.RemoveProduct | backend/src/rag/sync.py:253-283 | a successful "delete" result; the product's document is gone and nothing else changes |
| Sync.IndexSync.SyncProduct | backend/src/rag/sync.py:285-317 | the result names the routed operation; a deletion removes exactly the product's document; an add gives the index as Indexed and succeeds exactly when the document embeds; a re-embed gives the index as Reembedded, with the same success condition; a metadata update succeeds and gives the index as MetadataMerged |
| Sync.IndexSync.BulkRemove | backend/src/rag/sync.py:399-415 | one successful removal per id, in order, and the index loses exactly those documents |
| Sync.IndexSync.BulkIndex | backend/src/rag/sync.py:319-397 | nothing for no products; otherwise one "add" result per product, in order. When the batch embedding works, the i-th embedding is stored with the i-th product's sanitised metadata and document while embeddings last, and the rest fail with "list index out of range". When it fails, each product is indexed on its own, succeeding exactly when its own document embeds. Existing documents are kept |
| Sync.IndexSync.AddOne | backend/src/rag/sync.py:353-368 | the product is indexed, a new one with its embedding, sanitised metadata and document; nothing else changes |
| Sync.IndexSync.AddEmbedded | backend/src/rag/sync.py:351-386 | "Bulk indexed" for each product that has an embedding, "list index out of range" for the rest; the index is AddedAll: each such product not yet indexed gets embedding i with its sanitised metadata and document, and no other document is added or changed |
| Sync.IndexSync.EmbeddedStep | backend/src/rag/sync.py:352-386 | one turn of the add loop: the product is added when it has an embedding, its outcome is appended, and the index is AddedAll of one more product |
| Sync.IndexSync.IndexOne | backend/src/rag/sync.py:82-129 | index_product's result for the embedding outcome (successful exactly when it embeds); the index is Indexed: the entry with that embedding, sanitised metadata and document is added when absent, and a failure changes nothing |
| Sync.IndexSync.IndexEach | backend/src/rag/sync.py:390-395 | result i is index_product's result for product i's own embedding outcome, so it succeeds exactly when that document embeds; the index is IndexedAll, index_product applied to each product in turn |
| Sync.MetadataRoute | backend/src/rag/sync.py:150-157 | update_metadata re-embeds or only updates metadata, never anything else |
| Sync.Inserted | backend/src/rag/service.py:95-119 | add_product keeps every existing entry, holds the key afterwards, stores the new entry only when the key was absent, and adds no other key |
| Sync.Indexed | backend/src/rag/sync.py:82-129 | index_product's effect: existing entries kept; on success the product's document id is present and, if it was absent, holds the new embedding, sanitised metadata and document; on failure the index is unchanged |
| Sync.Reembedded | backend/src/rag/sync.py:204-251 | reembed_product's effect: same keys; other entries unchanged; on success an indexed product's entry takes the new embedding and document and its metadata overlaid with the product's; on failure unchanged |
| Sync.MetadataMerged | backend/src/rag/sync.py:159-174 | the metadata-only update: same keys, other entries unchanged, every embedding and document kept, the product's metadata overlaid with its fresh metadata |
| Sync.IndexedResult | backend/src/rag/sync.py:107-129 | index_product's result is for the product and "add", successful exactly when the embedding succeeds |
| Sync.OutcomeAt | backend/src/rag/sync.py:390-395 | the fallback's i-th outcome is the embedding of the i-th document |
| Sync.OutcomesAre | backend/src/rag/sync.py:390-395 | every fallback outcome is the embedding of its own document |
| Sync.AddedAllKept | backend/src/rag/sync.py:351-386 | the batch adds keep every entry already there |
| Sync.AddedAllHolds | backend/src/rag/sync.py:351-386 | every product whose embedding came back is in the index after the batch adds |
| Sync.IndexedAllKept | backend/src/rag/sync.py:390-395 | the one-by-one fallback keeps every entry already there |
| Sync.IndexedAllHolds | backend/src/rag/sync.py:390-395 | every product whose own embedding succeeded is in the index after the fallback |
| Sync.IndexSync.BulkIndexOn | backend/src/rag/sync.py:319-397 | bulk_index on the products' ids, metadata and documents, with the whole contract stated for BulkIndex |
| Embeddings.Combined | backend/src/rag/embeddings.py:259-278 | no chunks give an empty result with no tokens |
| Embeddings.NonBlankCons | backend/src/rag/embeddings.py:184 | filtering a list keeps its first text exactly when it is not blank, followed by the filtered rest |
| Embeddings.JoinedParts | backend/src/rag/embeddings.py:329-338 | joining the document parts with " \| " gives the name followed by each present segment, each preceded by the separator |
| Models.Product.constructor | backend/src/database/models.py:157-207 | a new product is ACTIVE, in stock, in CAD, with no failures, no prices, no brand, UPC or image, not checked and not deleted |
| Models.Store.constructor | backend/src/database/models.py:90-124 | a new store has success rate 1.0, no last success, and is created and updated now |
| Models.Alert.constructor | backend/src/database/models.py:235-267 | a new alert is active, untriggered and not deleted |
| Models.Notification.constructor | backend/src/database/models.py:334-360 | a new notification is PENDING, unsent, without error, created now |

## Left out

- `with_retry` and `get_retry_message` (backend/src/scraper/retry.py:259-302): the decorator wrapper and message text add no behaviour beyond `Retry.Execute`.
- `TokenBucket.acquire`'s sleep loop (backend/src/scraper/rate_limiter.py:193-210): sleeping is not modelled. The model keeps the refill and try-acquire steps it repeats.
- `RateLimiter.get_stats` and the singleton and configuration helpers of the rate limiter: reporting and global state only.
- `UserAgentManager.get_headers`, `get_stats` and `get_browser_headers`: constant header tables and reporting.
- Strategies `extract_async`, `_clean_html_for_llm` and `get_extraction_strategies`: the LLM call and HTML cleaning run in external libraries.
- `_check_store_health` in the healing service: its body is `pass`.
- Sleeps, locks, asyncio concurrency and the headless browser: timing and interleaving are not modelled. Every operation runs to completion alone.
- bleach, the HTML/CSS/XPath parsers, `json.loads`, DNS resolution, the language model, croniter and e-mail delivery: these run in external libraries. Their results are parameters.
- Randomness (user-agent choice, jitter): a parameter.
- Floating point: prices, ratios and confidences are exact reals or integer cents, so rounding error of Python floats is not captured.
- `_build_regeneration_prompt` and `load_regeneration_prompt`: prompt text for the language model.
- ProcessPriceChange: requires the alert objects to be distinct, which the database rows always are. It also requires the product to have a current price. Without one, the first firing price alert raises a TypeError inside send_price_alert (backend/src/notifications/templates/renderer.py:158), which ends the loop with that alert and the earlier firing ones already marked; the model does not follow that abort. SendPriceAlert itself models the raise.
- HandleAlerts: states the number of records added and their product, not the payload of each. HandleAlert states each record in full.
- `LLMRateLimiter.acquire` (a sleep loop), `with_timeout` and the `get_*` singletons of the guardrails: timing and global state.
- Agent tools `scan_website`, `web_search`, the `create_schedule` tool, `remove_product` and the queries of `list_products`: they call the browser, the web or plain queries. Only the limit clamp of `list_products` is modelled.
- `embed` versus `embed_async`: they compute the same vectors, and only one is modelled.
- `RAGService.count`, `reset` and the collection property: bookkeeping of the vector store.
- `parse_cron_to_trigger`: the APScheduler trigger object. `get_next_run_time` is a parameter.
- The repository queries other than those in the table: plain filters over the database.
- `get_store_health_calculator`, `get_batch_processor` and the other module singletons: global state.
- RunHealingCycle, HealStores: the report's counters are stated as bounds (each at most the number of products checked, all 0 when nothing was found, nothing healed when no regeneration succeeds), not as exact sums over the stores; each store's exact effect is stated by HealStoreProducts.
- DescribeCron: describe_cron raises IndexError for a numeric day-of-week of 7 or more (backend/src/scheduler/triggers.py:364-368), which the model keeps out with the precondition DowIndexable instead of modelling the raise. croniter reads 7 as Sunday, so the corrected DescribeCronCorrected has no precondition and names day 7 "Sun".
- Common.Lower, Common.LowerStr, Common.IsDigit, Common.IsAlpha: ASCII only, while Python's str.lower, isdigit and isalpha are Unicode. So Triggers.AllDigits refuses "²", which the source's isdigit accepts before int() raises.
- Security.HostOf: lowers the host with ASCII case folding only, so it keeps "É" where urlparse lowers it to "é".
- Regenerator.TypeName: JSON numbers are one kind in the model, so a whole-valued float such as 1.0 is named "int" in the error text where Python names it "float".
- EmbedText, EmbedBatch, EmbedChunked: embed, embed_async, embed_batch and embed_batch_async carry a tenacity retry of three attempts (backend/src/rag/embeddings.py:87-92, 124-129, 161-166, 209-214). The model calls the embedding API once, so a transient failure that the source retries away is a failure here, and SearchProducts then takes the SQLite path.
- EmbeddingError, SearchError: embeddings.py:19 and search.py:13 import them from core/exceptions.py, which does not define them, so importing these modules fails as written. The model represents them as the error text of a Result.
- SanitizeXss: the patterns are matched with ASCII case folding and an ASCII \w. Python's re also folds a few non-ASCII letters (the long s, the Kelvin sign) and counts non-ASCII letters and digits as \w, so a handful of non-ASCII spellings that the source removes are kept by the model.
- RunBatch: states the counts, the scrape logs appended and last_checked_at of the products paired with a result, not their new price, stock, details, failure count or status, nor the price-history rows. A product may appear twice in one batch, and its final fields then come from its last result. ProcessResult states the effect of one result in full.
- ZipResults: the same as RunBatch, for the zip loop it runs.
- RunSlice: states the counts and the logs of its batch. Product fields and price-history rows are left out for the reason given under RunBatch.
- RunUrls: states the counts and the logs of the whole loop. Product fields and price-history rows are left out for the reason given under RunBatch.
- RunBatches: the same as RunUrls.
- ProcessStoreBatch: states the counts, the logs, the store's last success time and the untouched rows of an inactive store. Product fields and price-history rows of an active store are left out for the reason given under RunBatch.
- ProcessActiveStore: the active-store path of ProcessStoreBatch states the tally, the logs, the store's last success time and the unchanged URLs, domains and store flags; the products' new fields and the price-history rows are left out for the reason given under RunBatch.
- CssList, ExtractAvailability: Python iterates a "css" or "in_stock_patterns" value that is a string character by character, and one that is an object key by key. The model treats a "css" value that is not a list of strings as an exception, which gives no result. A string or object pattern list never raises, and every returning path answers in stock, so its matches cannot change the answer: the model lets it match nothing.
- Batching.BatchProcessor.ProcessProducts: for an empty product list the source's summary has no `by_store` key, while the model returns an empty map there.

## Findings

| source | as written | input that shows it | evidently intended | confidence | as-written member | corrected member |
|---|---|---|---|---|---|---|
| backend/src/agent/agent.py:87-91 | `messages[-max_messages:]` with max_messages = 0 keeps every message | max_messages = 0 after one appended message | a window of 0 keeps no message | not executed | Agent.ZeroWindowKeepsAll | Agent.Trim |
| backend/src/scraper/block_detection.py:189-197 | the 503 branch tests a tuple of patterns, which is always true, so every 503 is MAINTENANCE; the defect reaches the scrape engine (engine.py:286-292 and 458-473, shown by Engine.ServedMaintenance), which the model keeps as written | status 503, a body of one hundred "0" characters, no headers | MAINTENANCE only when a maintenance pattern occurs in the page | not executed | BlockDetection.Maintenance503Finding | BlockDetection.DetectBlock |
| backend/src/scheduler/triggers.py:364-368 | numeric day-of-week indexes a Mon..Sun list | "0 7 * * 0" is described "on Mon" | one reading of day 0 throughout describe_cron: its own "0 6 * * 0" text and croniter (validate_cron, get_next_run_time) say Sunday. The APScheduler job itself (CronTrigger.from_crontab, backend/src/scheduler/service.py:145) reads 0 as Monday, as the comment at backend/src/scheduler/triggers.py:29 says, so which day the job runs is not settled by this correction | not executed | Triggers.SundayDescribedAsMonday | Triggers.DescribeCronCorrected |
| backend/src/agent/tools.py:577-583 | the empty group passes `message=` to CompareResult, which has no such field, so a TypeError is raised | an empty product list | an "Unknown" comparison result | not executed | Tools.ComparePricesAsWritten | Tools.ComparePrices |
| backend/src/api/schemas/alerts.py:18-40 | the target_value validator does not run when the field is left out | alert_type "target_price" without target_value | refused: the alert type needs a target value | not executed | AlertSchemas.OmittedTargetAccepted | AlertSchemas.ValidateAlertCreate |
| backend/src/api/schemas/schedules.py:27-57 | the one-target check is a validator of store_domain only and does not run when it is left out | neither product_id nor store_domain | refused: a schedule needs exactly one target | not executed | ScheduleSchemas.NoTargetAccepted | ScheduleSchemas.ValidateScheduleCreate |
| backend/src/scraper/sanitization.py:51-54 | each pattern is removed by one left-to-right re.sub pass, so deleting a match can join its neighbours into a new one; the defect reaches sanitize_product_name (sanitization.py:99, shown by ProductNameKeepsJavascript) and sanitize_image_url (sanitization.py:186, see ImageUrlAgreesWhenOnePassSuffices), which the model keeps as written | "javajavascript:script:" with a cleaner that leaves it alone gives "javascript:" | the returned text holds none of the three script patterns | not executed | Sanitization.XssOnePassLeavesJavascript | Sanitization.SanitizeXss |
