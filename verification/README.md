# CloudLock core in Dafny

CloudLock is a React password vault backed by Supabase. This project models
the parts of its front end that hold logic, and proves properties about them:

- **Password-strength analyser** (`src/utils/passwordStrength.ts`). The score is
  built up check by check: length, four character classes, common patterns and
  repeated characters. Suggestions are appended in check order. The score is
  clamped to [0, 100] and classed as weak, moderate or strong, each with its own
  colour and icon. `PasswordStrength.AnalyzePassword` is the step-by-step method.
  It is proved equal to the specification function `PasswordStrength.Analysis`,
  and the lemmas state what that function promises.
- **Brand-colour lookup** (`src/utils/brandColors.ts`). Three if-chains map a
  lower-cased url to a gradient, a text colour and a hover colour. Each chain
  is proved equal to a first-match search over a table of `includes` rules
  (`Text.Rule`, `Text.FirstMatch`). Precedence, the default case and case
  insensitivity then follow.
- **Vault screen** (`src/App.tsx`). Covers the search filter, the quick actions
  above the list and loading an entry into the edit form. The screen state
  these handlers update is the class `Vault.VaultScreen`.
- **Sign-in / sign-up form** (`src/components/Auth.tsx`). Two ordered chains
  translate service errors into user-facing texts. One submission's effect on
  the form state is modelled, and so is the mode toggle (`Auth.AuthForm`).
- **Tutorial** (`src/components/Tutorial.tsx`). A seven-step stepper with its
  button label and progress dots; its state is the class `Tutorial.TutorialState`.

Supporting modules:

- `Wrappers`: `Option`.
- `Sequences`: subsequence, distinctness and an order-keeping `Filter`, which
  models `Array.prototype.filter`.
- `Text`: the ASCII character classes, `toLowerCase`, `includes` as `Contains`
  and the ordered rule tables.

Strings are sequences of `char`.

The suggestion texts are the code's own, capitalised strings.

## Model

| member | source | states |
|---|---|---|
| PasswordStrength.AnalyzePassword | src/utils/passwordStrength.ts:11-98 | The step-by-step analyser returns exactly `Analysis(password)`: the clamped sum of credits, its category, colour and icon, and the suggestions of the failed checks in check order. |
| PasswordStrength.LengthStep | src/utils/passwordStrength.ts:15-22 | The length check gives 0 points and the "Use at least 8 characters" suggestion below 8 characters, 15 points for 8 to 11, and 25 points from 12. |
| PasswordStrength.CreditOrSuggest | src/utils/passwordStrength.ts:24-50 | A class check adds 20 points when the class is present. Otherwise it appends its message and leaves the score unchanged. |
| PasswordStrength.Penalise | src/utils/passwordStrength.ts:52-67 | A pattern check subtracts its penalty and appends its message when it matches. Otherwise it changes nothing. |
| PasswordStrength.Classify | src/utils/passwordStrength.ts:72-89 | Strength, colour and icon are those of the score's category. |
| PasswordStrength.Analysis | src/utils/passwordStrength.ts:11-97 | What `analyzePassword` returns: the score lies in [0, 100], the strength is the score's category, and with no suggestion the password is strong. |
| PasswordStrength.Suggestions | src/utils/passwordStrength.ts:13-67 | At most seven suggestions, and the length suggestion, when made, comes first and exactly for passwords under 8 characters. Order and one-per-check are stated by `SuggestionsOrdered` and `SuggestedIffFailed`. |
| PasswordStrength.HasUppercase | src/utils/passwordStrength.ts:25 | `/[A-Z]/`: some character is an ASCII capital. Definition only; see `UppercaseIffCaseMatters` and `SuggestedIffFailed`. |
| PasswordStrength.UppercaseIffCaseMatters | src/utils/passwordStrength.ts:25 | The uppercase check passes exactly when lower-casing changes the password. |
| PasswordStrength.HasLowercase | src/utils/passwordStrength.ts:32 | `/[a-z]/`: some character is an ASCII lower-case letter. Definition only; its effect is stated by `SuggestedIffFailed`. |
| PasswordStrength.HasDigit | src/utils/passwordStrength.ts:39 | `/\d/`: some character is an ASCII digit. Definition only; its effect is stated by `SuggestedIffFailed`. |
| PasswordStrength.HasSpecial | src/utils/passwordStrength.ts:46 | Some character is one of the twenty symbols of the class at that line. Definition only; its effect is stated by `SuggestedIffFailed`. |
| PasswordStrength.MatchesCommonPattern | src/utils/passwordStrength.ts:53-58 | The password starts with `123`, or its lower-cased form contains one of the six words. Definition only; see `NoCommonWord`, `LeadingDigitsPattern` and `CommonPatternIgnoresCase`. |
| PasswordStrength.HasRepeatRun | src/utils/passwordStrength.ts:64 | Three equal consecutive characters, none a line terminator. Definition only; see `RepeatRunExamples`. |
| PasswordStrength.ColorOf | src/utils/passwordStrength.ts:77-89 | Red for weak, yellow for moderate, green for strong. Definition only; see `AnalysisConsistent`. |
| PasswordStrength.IconOf | src/utils/passwordStrength.ts:77-89 | The X icon for weak, the alert icon for moderate, the check icon for strong. Definition only; see `AnalysisConsistent`. |
| PasswordStrength.LengthCredit | src/utils/passwordStrength.ts:16-22 | Credit is 0 under 8 characters, 15 for 8 to 11, and 25 from 12. |
| PasswordStrength.RawScore | src/utils/passwordStrength.ts:12-67 | The score before normalisation always lies in [-30, 105]. |
| PasswordStrength.Clamp | src/utils/passwordStrength.ts:69-70 | The result lies in [0, 100]. It equals the input inside that range, 0 below it and 100 above it. |
| PasswordStrength.Category | src/utils/passwordStrength.ts:77-89 | Weak exactly below 50, moderate exactly in [50, 80), strong exactly from 80. |
| PasswordStrength.FailedChecks | src/utils/passwordStrength.ts:15-67 | There is one flag per check, as many as there are suggestion texts. |
| PasswordStrength.AllSuggestionsDistinct | src/utils/passwordStrength.ts:17-66 | The seven suggestion texts are pairwise different. |
| PasswordStrength.SuggestionsOrdered | src/utils/passwordStrength.ts:13-67 | Suggestions come out in check order, never repeat, and number at most seven. |
| PasswordStrength.EmittedInOrder | src/utils/passwordStrength.ts:13-67 | Whichever checks fail, the appended messages form a subsequence of the seven messages. |
| PasswordStrength.EmitPrefix | src/utils/passwordStrength.ts:17 | Pushing a message, or skipping it, in front of a subsequence keeps a subsequence. |
| PasswordStrength.SuggestedIffFailed | src/utils/passwordStrength.ts:15-67 | Each of the seven messages is suggested if and only if its check fails. |
| PasswordStrength.EmittedIff | src/utils/passwordStrength.ts:13-67 | With seven distinct messages, the k-th is appended exactly when its flag is set. |
| PasswordStrength.CategoryMonotone | src/utils/passwordStrength.ts:77-89 | A higher score never falls into a weaker category. |
| PasswordStrength.AnalysisConsistent | src/utils/passwordStrength.ts:69-97 | The reported score lies in [0, 100]. Weak, `text-red-600` and the X icon exactly below 50; moderate, `text-yellow-600` and the alert icon exactly in [50, 80); strong, `text-green-600` and the check icon exactly from 80. |
| PasswordStrength.NoSuggestionsIsStrong | src/utils/passwordStrength.ts:15-89 | With no suggestion the password is strong, scoring 100 from 12 characters and 95 for 8 to 11. |
| PasswordStrength.StrongPassword | src/utils/passwordStrength.ts:15-97 | Twelve or more characters, all four classes and no penalty give a raw 105. That clamps to 100: strong, green, check icon, no suggestions. |
| PasswordStrength.ShortPasswordScore | src/utils/passwordStrength.ts:15-70 | Under 8 characters the score is at most 80. It is exactly 80 if and only if all four classes are present and neither penalty applies. |
| PasswordStrength.EmptyPassword | src/utils/passwordStrength.ts:11-97 | The empty password scores 0 and is weak, with the length suggestion and the four class suggestions in order. |
| PasswordStrength.NoWordInEmpty | src/utils/passwordStrength.ts:53-58 | No non-empty pattern occurs in the empty string. |
| PasswordStrength.LowercaseCommonWord | src/utils/passwordStrength.ts:15-97 | A password of 8 to 11 lower-case letters that matches a common pattern scores 15 and is weak. It gets the uppercase, numbers, special and common-pattern suggestions, in that order. |
| PasswordStrength.ShortButComplete | src/utils/passwordStrength.ts:15-97 | Under 8 characters, with all four classes and no penalty, the score is 80: strong despite the length suggestion. |
| PasswordStrength.RepeatPenaltyOnly | src/utils/passwordStrength.ts:15-97 | A long, complete password whose only fault is a repeat run scores 95, strong, suggesting only "Avoid repeating characters". |
| PasswordStrength.ShortWithRun | src/utils/passwordStrength.ts:15-97 | Short, three classes and a repeat run give exactly 50: moderate, yellow, with three suggestions. |
| PasswordStrength.PasswordIsWeak | src/utils/passwordStrength.ts:11-97 | "password" scores 15 and is weak, with four suggestions. |
| PasswordStrength.PasswordClasses | src/utils/passwordStrength.ts:24-50 | "password" has lower-case letters only. |
| PasswordStrength.PasswordPatterns | src/utils/passwordStrength.ts:52-67 | "password" matches a common pattern and has no repeat run. |
| PasswordStrength.FourCharactersAreStrong | src/utils/passwordStrength.ts:11-97 | "aA1!" scores 80 and is strong, with only the length suggestion. |
| PasswordStrength.FourCharactersChecks | src/utils/passwordStrength.ts:24-67 | "aA1!" has all four classes and no penalty. |
| PasswordStrength.TroubadorIsStrong | src/utils/passwordStrength.ts:11-97 | "Tr0ub4dor&3XyZ" scores 100 and is strong, with no suggestion. |
| PasswordStrength.TroubadorClasses | src/utils/passwordStrength.ts:24-50 | "Tr0ub4dor&3XyZ" has all four classes. |
| PasswordStrength.TroubadorNoRun | src/utils/passwordStrength.ts:63-67 | "Tr0ub4dor&3XyZ" has no repeat run. |
| PasswordStrength.TroubadorPatterns | src/utils/passwordStrength.ts:52-61 | "Tr0ub4dor&3XyZ" matches no common pattern. |
| PasswordStrength.RepeatsCostTen | src/utils/passwordStrength.ts:11-97 | "aaaAAA111!!!" loses 10 points once, for four runs, and scores 95. |
| PasswordStrength.RepeatsClasses | src/utils/passwordStrength.ts:24-50 | "aaaAAA111!!!" has all four classes. |
| PasswordStrength.RepeatsPatterns | src/utils/passwordStrength.ts:52-67 | "aaaAAA111!!!" matches no common pattern but has a repeat run. |
| PasswordStrength.FiftyIsModerate | src/utils/passwordStrength.ts:11-97 | "aaaA1" scores 50 and is moderate. |
| PasswordStrength.FiftyClasses | src/utils/passwordStrength.ts:24-50 | "aaaA1" has upper, lower and digit, but no special character. |
| PasswordStrength.FiftyPatterns | src/utils/passwordStrength.ts:52-67 | "aaaA1" matches no common pattern and has a repeat run. |
| PasswordStrength.CommonPatternIgnoresCase | src/utils/passwordStrength.ts:54 | The case-insensitive patterns match "xQWERTYx". |
| PasswordStrength.LeadingDigitsPattern | src/utils/passwordStrength.ts:54 | `^123` matches "123x" but not "x123". |
| PasswordStrength.RepeatRunExamples | src/utils/passwordStrength.ts:64 | "xaaa" has a run and "aab" has none. "\n\n\n" has none, because `.` does not match line terminators. |
| PasswordStrength.NoCommonWord | src/utils/passwordStrength.ts:53-58 | A string without any of p, q, c, m, l, w, in either case, holds none of the six words once lower-cased. |
| BrandColors.IsBlank | src/utils/brandColors.ts:3 | `!url`: the url is absent or empty. Definition only; see `BlankUrl`. |
| BrandColors.BrandGradient | src/utils/brandColors.ts:2-20 | The gray blank gradient is returned exactly for an absent or empty url; the rest of the chain is stated by `GradientIsFirstMatch`. |
| BrandColors.BrandTextColor | src/utils/brandColors.ts:22-29 | The text colour is `text-gray-100` exactly when the url is absent, empty or contains `apple.com`. Otherwise it is `text-white`. |
| BrandColors.BrandHoverColor | src/utils/brandColors.ts:31-39 | Each of the four outcomes holds exactly in its own case: blank, amazon, apple without amazon, or neither. |
| BrandColors.GradientIsFirstMatch | src/utils/brandColors.ts:2-20 | The gradient chain equals the first-match lookup in its ten-rule table, with the blank and default values. |
| BrandColors.ColorsAreFirstMatch | src/utils/brandColors.ts:22-39 | The text-colour and hover chains equal the first-match lookups in their tables. |
| BrandColors.GradientPrecedence | src/utils/brandColors.ts:7-16 | The first rule a url matches decides its gradient, whatever later rules it also matches. |
| BrandColors.AmazonFirst | src/utils/brandColors.ts:7-35 | A url containing `amazon.com` gets the Amazon gradient and hover colour, even when it names other brands too. |
| BrandColors.UnknownDomain | src/utils/brandColors.ts:19 | A non-empty url holding none of the ten keys gets the default gradient. |
| BrandColors.BlankUrl | src/utils/brandColors.ts:3-32 | An absent or empty url gets the gray gradient, text and hover colours. |
| BrandColors.CaseInsensitive | src/utils/brandColors.ts:5-34 | A url and its lower-cased form get the same three styles. |
| BrandColors.KeyAnywhere | src/utils/brandColors.ts:7 | `amazon.com` anywhere in the url, with any text around it, selects the Amazon gradient. |
| BrandColors.LowerSplice | src/utils/brandColors.ts:5-7 | A key without capitals, placed anywhere in a url, is still found after the url is lower-cased. |
| Vault.MatchesQuery | src/App.tsx:177-181 | The lower-cased query occurs in the lower-cased title, username, or url when there is one. Definition only; see `SearchMember`, `NullUrlSearch` and `SearchIgnoresCase`. |
| Vault.SearchResults | src/App.tsx:171-183 | The empty query returns the list unchanged. Any other query keeps only entries that match it. |
| Vault.SearchKeepsOrder | src/App.tsx:177-182 | The results are a subsequence of the saved list: nothing added, nothing reordered. |
| Vault.SearchMember | src/App.tsx:172-181 | An entry is shown if and only if it is saved and the query matches its title, username or url, ignoring case. |
| Vault.EmptyQueryMatches | src/App.tsx:172-178 | Every entry matches the empty query. |
| Vault.EmptyQueryFiltersNothing | src/App.tsx:172-181 | Filtering with the empty query keeps the whole list, so the early return agrees with filtering. |
| Vault.SearchCount | src/App.tsx:171-183 | Each matching entry is shown exactly as many times as it is saved, and every other entry not at all. |
| Vault.NullUrlSearch | src/App.tsx:180 | An entry without a url is matched only through its title or username. |
| Vault.SearchIgnoresCase | src/App.tsx:178-180 | Searching for a query and for its lower-cased form gives the same results. |
| Vault.AmazonSaved | src/App.tsx:214 | Some saved entry has a url containing `amazon.com`, compared case-sensitively. Definition only; see `QuickActionsShown` and `AmazonTestIsCaseSensitive`. |
| Vault.DeclaredQuickActions | src/App.tsx:198-221 | The three actions in declared order, "Add Amazon" hidden when an Amazon url is saved. Definition only; see `QuickActionsShown`. |
| Vault.Shown | src/App.tsx:222 | An action is shown when it is not hidden. Definition only; see `QuickActionsShown`. |
| Vault.QuickActions | src/App.tsx:198-222 | The declared actions without the hidden ones. Definition only; see `QuickActionsShown`. |
| Vault.QuickActionsListed | src/App.tsx:198-222 | The shown actions are "Add Password" then "Self-Destruct" when an Amazon url is saved, and "Add Password", "Add Amazon", "Self-Destruct" otherwise. |
| Vault.ShownActions | src/App.tsx:214-222 | Filtering the three declared actions keeps "Add Amazon" exactly when it is not hidden, and always the other two, in order. |
| Vault.QuickActionsShown | src/App.tsx:198-222 | "Add Password" and "Self-Destruct" are always offered. "Add Amazon" is offered if and only if no saved url contains `amazon.com`. No hidden action is shown, the declared order is kept, and two actions are shown when an Amazon url is saved, three otherwise. |
| Vault.AmazonTestIsCaseSensitive | src/App.tsx:214 | A url of `AMAZON.COM` does not hide "Add Amazon". |
| Vault.EditForm | src/App.tsx:141-147 | Title, username and password are copied unchanged. A missing url or note becomes `''` and a present one is copied. |
| Vault.OrEmpty | src/App.tsx:145-146 | A missing value becomes the empty string and a present one is kept. Definition only; see `EditForm`. |
| Vault.MissingAndEmptyUrlAlike | src/App.tsx:145 | A missing url and an empty one load the same form. |
| Vault.VaultScreen.constructor | src/App.tsx:29-45 | Initially no entries, nothing selected, an empty form and the modal closed. |
| Vault.VaultScreen.ReceivePasswords | src/App.tsx:94-95 | Both lists become the fetched rows, or empty when the answer is null. Nothing else changes. |
| Vault.VaultScreen.HandleSearch | src/App.tsx:171-183 | The filtered list becomes `SearchResults` of the saved list. Nothing else changes. |
| Vault.VaultScreen.HandleEdit | src/App.tsx:139-149 | The entry is selected, the form holds `EditForm(entry)` and the modal opens. The lists are unchanged. |
| Auth.SignUpErrorMessage | src/components/Auth.tsx:28-36 | The rate-limit rule wins, then "Password", then "Email". A message matching none passes through unchanged. |
| Auth.SignInErrorMessage | src/components/Auth.tsx:44-50 | The exact text "Invalid login credentials" is translated. Otherwise "rate limit" is tested, and any other message passes through. |
| Auth.SignUpIsFirstMatch | src/components/Auth.tsx:28-36 | The sign-up chain is the first-match lookup in its three-rule table. |
| Auth.RateLimitBeforeEmail | src/components/Auth.tsx:29-34 | A rate-limit message also contains "Email", yet it is translated to the rate-limit text. |
| Auth.SignInExactMatch | src/components/Auth.tsx:45 | "Invalid login credentials." with a full stop is not translated. |
| Auth.ReturnedErrorText | src/components/Auth.tsx:26-52 | The sign-up or sign-in translation, by mode. Definition only; see `SubmitError`. |
| Auth.SubmitError | src/components/Auth.tsx:18-54 | No error exactly on success. An error the service returns shows its sign-up or sign-in translation, by mode. A thrown Error shows its message, and anything else thrown shows the generic text. |
| Auth.AuthForm.constructor | src/components/Auth.tsx:6-11 | The form starts empty, in sign-in mode, with no error and not loading. |
| Auth.AuthForm.HandleSubmit | src/components/Auth.tsx:13-58 | Afterwards the error is the outcome's translated error and loading is off. Mode, fields and visibility are unchanged. |
| Auth.AuthForm.ToggleMode | src/components/Auth.tsx:206-211 | The mode flips, and the error, email and password are cleared. |
| Tutorial.PrimaryButtonLabel | src/components/Tutorial.tsx:157 | The label is "Get Started" exactly on the last step and "Next" otherwise. |
| Tutorial.DotState | src/components/Tutorial.tsx:135-141 | A dot is current, completed or pending exactly when its index is equal to, before or after the current step. |
| Tutorial.DotClass | src/components/Tutorial.tsx:135-141 | The class of each dot state: wide and blue when current, narrow and blue when completed, narrow and gray when pending. Definition only; the states are stated by `DotState`. |
| Tutorial.ProgressDots | src/components/Tutorial.tsx:132-143 | There is one dot per step, each in the state its index gives. |
| Tutorial.OneCurrentDot | src/components/Tutorial.tsx:132-143 | On any valid step, exactly one dot is current, `currentStep` dots are completed and the rest are pending. |
| Tutorial.CountSplit | src/components/Tutorial.tsx:132-143 | Counting a kind of dot splits around any position. |
| Tutorial.CountAll | src/components/Tutorial.tsx:132-143 | A run of one kind of dot counts its full length. |
| Tutorial.CountNone | src/components/Tutorial.tsx:132-143 | A kind absent from a run counts zero. |
| Tutorial.TutorialState.constructor | src/components/Tutorial.tsx:64-66 | The tutorial starts on step 0, not closing, with no picture loaded. |
| Tutorial.TutorialState.HandleNext | src/components/Tutorial.tsx:68-75 | Before the last step it moves one step on and resets the picture. On the last step it starts closing. The step index stays valid. |
| Tutorial.TutorialState.HandleClose | src/components/Tutorial.tsx:77-82 | The tutorial starts closing; the step and picture are unchanged. |
| Tutorial.TutorialState.HandleImageLoad | src/components/Tutorial.tsx:111 | The picture is marked loaded; the step and closing flag are unchanged. |
| Tutorial.TutorialState.Step | src/components/Tutorial.tsx:84 | The step record at the current index. Definition only. |
| Tutorial.WalkThrough | src/components/Tutorial.tsx:64-82 | From the start, six presses reach the last step, labelled "Get Started". A seventh press closes the tutorial on that step. |
| Text.LowerChar | src/utils/brandColors.ts:5 | Lower-casing maps A-Z to a-z and leaves every other character alone. |
| Text.ToLower | src/App.tsx:178 | Lower-casing keeps the length. |
| Text.ToLowerAt | src/App.tsx:178 | Each character is lower-cased in place. |
| Text.ToLowerIdempotent | src/App.tsx:178 | Lower-casing twice is lower-casing once. |
| Text.ToLowerAppend | src/utils/brandColors.ts:5 | Lower-casing distributes over concatenation. |
| Text.ToLowerFixed | src/utils/brandColors.ts:5 | A string without capitals is its own lower-cased form. |
| Text.ToLowerLacks | src/utils/passwordStrength.ts:54-55 | A lower-case letter absent from a string in both cases is absent from its lower-cased form. |
| Text.ToLowerChanges | src/utils/brandColors.ts:5 | Lower-casing leaves a string unchanged exactly when it holds no ASCII capital. |
| Text.ToLowerEmpty | src/App.tsx:172 | Only the empty string lower-cases to the empty string. |
| Text.Contains | src/App.tsx:178 | `includes`: the pattern starts at some position. Definition only; see `ContainsOccurs`. |
| Text.ContainsOccurs | src/App.tsx:178 | `includes` holds if and only if the pattern occurs at some position. |
| Text.ShiftOccurrence | src/App.tsx:178 | An occurrence at i + 1 is an occurrence at i in the tail. |
| Text.ContainsMiddle | src/utils/brandColors.ts:7 | A string contains any pattern placed inside it. |
| Text.ContainsPrefix | src/components/Auth.tsx:29-33 | A string containing a pattern contains every prefix of it. |
| Text.MissingCharacter | src/components/Auth.tsx:47 | A pattern with a character the string lacks does not occur in it. |
| Text.ContainsAny | src/utils/passwordStrength.ts:58 | `some` over `includes`. Definition only; see `ContainsAnyExists`. |
| Text.ContainsAnyExists | src/utils/passwordStrength.ts:58 | `some` holds if and only if one of the patterns occurs. |
| Text.FirstMatch | src/utils/brandColors.ts:7-16 | The first rule whose key occurs, with no earlier key occurring, or the table length when none occurs. |
| Text.LookupFirst | src/utils/brandColors.ts:7-16 | A rule whose key occurs, with no earlier key occurring, gives the value. |
| Text.LookupNone | src/utils/brandColors.ts:19 | With no key occurring, the fall-through value is returned. |
| Sequences.Filter | src/App.tsx:177-181 | `filter` keeps exactly the elements that pass, in order, as a subsequence. Multiplicities are stated by `FilterCount`. |
| Sequences.FilterCount | src/App.tsx:177-181 | Every passing element is kept as many times as it occurs, every other one dropped. |
| Sequences.FilterAll | src/App.tsx:172-181 | When every element passes, `filter` returns the sequence itself. |
| Sequences.FilterMember | src/App.tsx:222 | An element survives `filter` if and only if it was there and passes. |
| Sequences.FilterAgree | src/App.tsx:177-181 | Two tests that agree on every element filter alike. |

## Left out

- Text.ToLower: lower-cases ASCII only. JavaScript's `toLowerCase` is full Unicode, so the Kelvin sign or `İ` would fold differently in brand lookups and search. The `/i` patterns of the analyser are exact under ASCII folding, because non-Unicode `/i` never folds a non-ASCII character onto an ASCII one.
- PasswordStrength.AnalyzePassword: `password.length` counts UTF-16 code units. The model counts characters, so a password with astral characters can fall in a different length band.
- PasswordStrength.HasRepeatRun: `.` without the `u` flag matches a single UTF-16 unit. A run of three equal astral characters is therefore not a run in the source, but is one in the model.
- Network calls are not modelled: the Supabase sign-up, sign-in and fetch. Their outcome is a parameter: `Auth.Outcome` for a submission, and the fetched rows for `ReceivePasswords`. The fetch's error path is not modelled.
- `handleClose`'s 300 ms timer and its delayed `onClose` call are left out: timers are outside the model.
- The click handlers of the quick actions are left out: "Add Password", `handleAddAmazon` and `handleSelfDestruct`. Only which actions are shown is modelled.
- `App`'s `handleSubmit`, `handleDelete`, `fetchPasswords`' query, the theme, connection state and sign-out are left out: they are service calls or styling outside the vault logic.
- The tutorial steps' descriptions and image urls are left out, and icon components are tags (`Icon`, `StepIcon`). Nothing modelled depends on them.
- React's asynchronous, batched state updates are modelled as immediate field assignments.
- Auth.AuthForm.HandleSubmit: `handleSubmit` runs atomically: no handler can run between the request and the reply. In the component the mode toggle and the inputs stay live while the request is awaited, so a reply can land after a toggle and show the old mode's translated error; the model does not reach that state.
- The search box's own input handling, in `SearchBar`, is not part of this model.
