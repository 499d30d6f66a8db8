# Volunteer job board and donation leaderboard: a verified model

This project models the core of a volunteer-matching web application in
Dafny and proves properties of it. The application has these parts:

- a Django REST backend where posters publish jobs and volunteers swipe on them;
- a poster who confirms a volunteer and so opens a conversation;
- rate-limited AI helpers that improve job descriptions and draw job images;
- registration of new accounts;
- a React front end with a job card, a profile editor, and a donation
  leaderboard backed by an Ethereum contract.

The model covers the parts whose behaviour the code states outright:

- the job endpoints: matching, swipe, create, update, soft delete, confirm
  volunteer, interested users;
- the job-creation serializer;
- the AI endpoints' per-user counters;
- registration uniqueness;
- the chat summaries;
- the profile editor's toggles and save;
- the job card's formatting;
- the leaderboard component: connect, refresh, four write handlers, their
  button gates and the ranking.

Modules:

| module | file | models |
|---|---|---|
| `Wrappers` | wrappers.dfy | `Option` and `Result` |
| `Text` | text.dfy | Python's `str.strip()`, slicing with a possibly negative bound, the REST framework's `CharField` rules, ASCII case mapping |
| `Sorting` | sorting.dfy | a stable descending insertion sort, on arrays and as a specification on sequences |
| `JsonValue` | json_value.dfy | decoded JSON values and Python truthiness |
| `JobSerializers` | job_serializers.dfy | the job-creation serializer |
| `JobBoard` | job_board.dfy | the matching endpoints over the job, interest, acceptance and conversation tables |
| `RateLimit` | rate_limit.dfy | the AI endpoints and their cache counters |
| `Registration` | registration.dfy | the register serializer and account creation |
| `Chat` | chat.dfy | conversation summaries, the send-message rule, the admin preview |
| `ProfileEdit` | profile_edit.dfy | the profile editor dialog |
| `JobCard` | job_card.dfy | the job card's badge and tag row |
| `EthLeaderboard` | eth_leaderboard.dfy | the leaderboard component over an abstract ledger |

Anything outside the program is a parameter: the database's new ids, the
clock, the AI services, the wallet, the ledger's replies, and the
match-score computation. Code that changes state is modelled as a class
whose methods change its fields. Pure code is modelled as functions, with
its properties proved as lemmas.

## Model

| member | source | states |
|---|---|---|
| Text.Strip | server/matching/serializers.py:50-52 | the result is a contiguous part of the input that neither starts nor ends with whitespace |
| Text.StripRemovesOnlySpace | server/matching/serializers.py:50-52 | everything stripping removes, before and after the kept part, is whitespace |
| Text.StripIdempotent | server/matching/serializers.py:50-52 | stripping twice is stripping once |
| Text.ValidatorErrors | server/matching/serializers.py:50-52 | the validators report a length error iff the value exceeds the field's limit, naming that limit, and a NUL-character error iff the value contains NUL |
| Text.NulFreeMeansNoNul | server/matching/serializers.py:50-52 | the recursive NUL-freedom test agrees with NUL not occurring in the string |
| Text.CharField | server/matching/serializers.py:50-52 | a text field passes iff it is not blank after stripping, its stripped length is within the limit, and it has no NUL character; blankness is reported as such, otherwise every failing validator's message; the cleaned value is the stripped text |
| Text.PyPrefix | server/matching/views.py:49 | `s[:n]` is a prefix of `s` of length min(n, len) for n >= 0, or max(len + n, 0) for negative n, and all of `s` when n >= len |
| Sorting.InsertionSortDesc | server/matching/views.py:48 | the array ends up as the specification sort of its old contents |
| Sorting.InsertDescSorted | server/matching/views.py:48 | the specification sort yields non-increasing keys |
| Sorting.SortDescPermutes | server/matching/views.py:48 | the specification sort is a permutation of its input |
| Sorting.SortDescStable | server/matching/views.py:48 | the elements with any one key keep their relative order, as Python's stable sort promises |
| JobSerializers.RequiredText | server/matching/serializers.py:50-52 | a missing text field is "required"; otherwise it follows the CharField rules with the field's limit |
| JobSerializers.ValidateSkillTags | server/matching/serializers.py:53 | an absent tag list is empty; a list passes iff every tag passes the text rules, and every tag is stripped and non-empty |
| JobSerializers.ValidateAccessibilityFlags | server/matching/serializers.py:54 | absent flags are `{}`; a value passes iff it is a dictionary, which is kept as sent |
| JobSerializers.IssueAt | server/matching/serializers.py:49-58 | a field is in the error report iff it is a field of the form and its own rule refuses it, and it is reported with that rule's reason |
| JobSerializers.TextFieldsReported | server/matching/serializers.py:50-52 | title, description and short description are reported iff missing or refused by their CharField rule; a present non-blank title is reported with the messages of its failing validators |
| JobSerializers.TagsReported | server/matching/serializers.py:53 | the tag list is reported iff some tag fails the text rules, naming the positions of those tags |
| JobSerializers.FlagsReported | server/matching/serializers.py:54 | the flags are reported iff sent and not a dictionary; the object-level key is never a field error |
| JobSerializers.ValidateShifts | server/matching/serializers.py:60-64 | refuses iff both shift times are present and the end is not after the start; otherwise the data pass unchanged |
| JobSerializers.CleanData | server/matching/serializers.py:49-58 | the field rules leave the shift times as sent |
| JobSerializers.CleanTextFields | server/matching/serializers.py:50-52 | validated text fields are present, stripped, non-empty and within their limits |
| JobSerializers.CleanOptionalFields | server/matching/serializers.py:53-58 | omitted tags, flags and coordinates take their defaults; sent tags are stripped and non-empty; sent flags and coordinates are kept |
| JobSerializers.ValidateJobCreate | server/matching/serializers.py:49-64 | field errors are reported for every field; the shift check runs only when every field passed; success iff neither fails |
| JobSerializers.ValidatedJobCreate | server/matching/serializers.py:60-64 | accepted data is the cleaned request, and a shift with both times starts before it ends |
| JobSerializers.MissingShiftSkipsOrderCheck | server/matching/serializers.py:60-64 | without both times the object-level check lets the cleaned data through |
| JobBoard.TruthyKeys | server/matching/views.py:137-141 | a key is kept iff some entry has it with a truthy value |
| JobBoard.FlagsToRequirements | server/matching/views.py:137-141 | a non-dictionary gives no requirements; a requirement is listed iff its flag is truthy |
| JobBoard.FlagsExample | server/matching/tests/test_job_crud.py:44-61 | two true and two false flags give the two true keys in request order |
| JobBoard.PositiveIsFilter | server/matching/views.py:42-46 | the kept candidates all have positive scores, come from the candidates, and include every positive one |
| JobBoard.MatchedRankingIsPrefix | server/matching/views.py:48-49 | the response is a prefix of the sorted positive candidates, of length min(limit, count) for a non-negative limit |
| JobBoard.MatchedRankingSorted | server/matching/views.py:42-49 | every returned job scored positive and came from the candidates, and scores are non-increasing |
| JobBoard.MatchedRankingKeepsTheBest | server/matching/views.py:48-49 | a positive candidate left out scores no higher than any returned job |
| JobBoard.MatchedRankingStable | server/matching/views.py:48 | jobs with equal scores keep their query order |
| JobBoard.MatchedJobs | server/matching/views.py:21-59 | the loop and sort compute the specification ranking |
| JobBoard.NewJob | server/matching/views.py:151-172 | omitted shift times default to one day from now and two hours after the start; the job is the caller's, open and active, with requirements from the flags |
| JobBoard.NewJobShiftOrder | server/matching/views.py:162-170 | a created shift starts before it ends, except when only an end is given that is no later than the default start |
| JobBoard.SetFieldEffect | server/matching/views.py:195-198 | setting one attribute changes that attribute only, and only with a value of its type |
| JobBoard.ApplyFieldsEffect | server/matching/views.py:195-198 | after the whitelist loop each whitelisted field holds the request's value when named, else its old value; poster, activity and requirements stay |
| JobBoard.UpdateChangesOnlyWhitelisted | server/matching/views.py:195-202 | an update sets exactly the named whitelisted fields, and the requirements only when flags are sent |
| JobBoard.JobBoard.SwipeInterest | server/matching/views.py:64-94 | the job must be open and active (404 otherwise); the interest is upserted; "created" iff no interest existed; a positive swipe with no acceptance yet adds a pending one |
| JobBoard.PostedByInsert | server/matching/views.py:146-173 | storing a new active job adds exactly its id to its poster's posted jobs |
| JobBoard.PostedByDelete | server/matching/views.py:209-220 | deactivating a job removes exactly its id from its poster's posted jobs |
| JobBoard.JobBoard.StoreJob | server/matching/views.py:172-173 | the new job is stored under the new id and answered with 201; the caller's posted jobs gain that id; no other table changes |
| JobBoard.JobBoard.CreateJob | server/matching/views.py:146-173 | an invalid request changes nothing and returns the errors; a valid one adds exactly the new job to the caller's jobs |
| JobBoard.JobBoard.UpdateJob | server/matching/views.py:186-204 | 404 for a missing or deleted job, 403 for a non-poster, otherwise the job becomes the updated job; no other table changes |
| JobBoard.JobBoard.DeleteJob | server/matching/views.py:209-220 | 404 and 403 as for update; otherwise the job stays stored, becomes inactive, and leaves the poster's list |
| JobBoard.JobBoard.ConfirmVolunteer | server/matching/views.py:257-300 | the errors come in the code's order; success iff the acceptance is pending or accepted; it then becomes confirmed and exactly one conversation exists for the pair |
| JobBoard.JobBoard.JobInterestedUsers | server/matching/views.py:320-333 | only the poster of an active job gets the list, which is exactly the users with a positive interest |
| JobBoard.JobBoard.ConfirmTwice | server/matching/views.py:282-287 | confirming a confirmed volunteer again is refused with the stored status |
| JobBoard.JobBoard.DeleteThenUpdate | server/matching/views.py:187-190 | after a soft delete the job can be neither updated nor deleted again |
| RateLimit.Decimal | server/ai_assist/views.py:21-26 | the decimal text of an id is non-empty and ends with its last digit |
| RateLimit.DecimalInjective | server/ai_assist/views.py:21-26 | different ids print differently |
| RateLimit.KeysSeparate | server/ai_assist/views.py:21-26 | each user has an enhancement counter and an image counter of their own, and no enhancement key is an image key |
| RateLimit.CheckPrompt | server/ai_assist/views.py:47-59 | a stripped prompt passes iff it is non-empty and within the given limit; an empty one is "prompt is required", a longer one the endpoint's own length message |
| RateLimit.BumpEnhanceBounded | server/ai_assist/views.py:33-41 | bumping an enhancement counter below 5 keeps every counter within its maximum |
| RateLimit.BumpImageBounded | server/ai_assist/views.py:112-133 | bumping an image counter below 3 keeps every counter within its maximum |
| RateLimit.ExpireBounded | server/ai_assist/views.py:41 | dropping an expired counter keeps every counter within its maximum |
| RateLimit.RateLimiter.CheckRateLimit | server/ai_assist/views.py:29-35 | allowed iff the count is below 5, and then the remaining count is 5 - count - 1; refused gives 0; remaining is always below 5 |
| RateLimit.RateLimiter.IncrementRateLimit | server/ai_assist/views.py:38-41 | the user's counter becomes its old value plus one, nothing else changes |
| RateLimit.RateLimiter.CallEnhanceService | server/ai_assist/views.py:68-89 | a configuration error answers 503 with its message, another failure the fixed 503; only a produced result is returned with the remaining count and bumps the user's counter by one |
| RateLimit.RateLimiter.EnhanceJob | server/ai_assist/views.py:44-89 | prompt errors, then 429 at 5, then the AI call with the stripped prompt; 503 with the service's message or the fixed one; only success bumps the counter, and counters stay bounded |
| RateLimit.RateLimiter.GenerateImage | server/ai_assist/views.py:92-137 | the same with limit 300, maximum 3, the image counter and the image messages |
| RateLimit.SixthRequestRefused | server/ai_assist/views.py:29-41 | five successful enhancements report 4, 3, 2, 1, 0 remaining, and the sixth is refused with 429 |
| Registration.CheckedText | server/authentication/serializers.py:21-29 | the uniqueness check runs only on a value that passed the field rules, and then refuses iff the value is taken |
| Registration.OptionalName | server/authentication/serializers.py:18-19 | an omitted name is empty; a given one passes iff it passes the 150-character field rules, is then the stripped input, and is otherwise refused with the field's reason |
| Registration.IssueAt | server/authentication/serializers.py:14-33 | a field is reported iff it is refused |
| Registration.NoIssuesMeansFieldsPass | server/authentication/serializers.py:14-33 | an empty error report means every field passed |
| Registration.CredentialsAccepted | server/authentication/serializers.py:15-29 | an accepted email or username is the stripped input, non-empty, within its limit and not already stored |
| Registration.PasswordFieldAccepted | server/authentication/serializers.py:17 | an accepted password is the stripped input |
| Registration.NameFields | server/authentication/serializers.py:18-19 | the first and last name are each judged by the optional-name rule |
| Registration.ValidateRegister | server/authentication/serializers.py:14-33 | refused iff some field is refused, with every such field reported; accepted data is stripped, within its limits, empty names when omitted and stripped names when given, and reuses no stored email or username |
| Registration.DuplicatesRefused | server/authentication/serializers.py:21-29 | reusing a stored email or username is refused with the matching message |
| Registration.InsertKeepsUnique | server/authentication/serializers.py:21-29 | adding a user whose email and username are free keeps emails and usernames unique |
| Registration.Accounts.Register | server/authentication/serializers.py:35-46 | a refused request changes nothing; an accepted one adds exactly one user and one profile for it, and emails and usernames stay unique |
| Chat.Latest | server/chat/serializers.py:35 | none iff there are no messages; otherwise a message of the conversation that no other message postdates, the first such in listing order |
| Chat.Summarize | server/chat/serializers.py:34-46 | the last message is absent iff there are none; otherwise it shows the newest message's first 100 characters, sender and time; the unread count is 0 |
| Chat.LastMessagePrefix | server/chat/serializers.py:38 | the shown content is the first min(100, n) characters of the newest message |
| Chat.ValidateSendMessage | server/chat/serializers.py:49-50 | sent content passes iff it is present, not blank, at most 2000 characters after stripping, and free of NUL characters |
| Chat.ContentPreview | server/chat/admin.py:19-20 | content of at most 50 characters is unchanged, including exactly 50; longer content becomes its first 50 characters and "...", 53 in all; the preview always begins with the content's first min(50, n) characters |
| Chat.ContentPreviewIdempotent | server/chat/admin.py:19-20 | previewing a preview changes nothing |
| ProfileEdit.Without | frontend/components/profile/ProfileEditModal.tsx:43 | the filtered list lacks the item and has every other element as often as before |
| ProfileEdit.WithoutAppend | frontend/components/profile/ProfileEditModal.tsx:43 | filtering distributes over concatenation, so the kept elements keep their order |
| ProfileEdit.Toggle | frontend/components/profile/ProfileEditModal.tsx:41-51 | a present item is filtered out, an absent one appended; the item is in the result iff it was not before; other elements' membership is unchanged |
| ProfileEdit.ToggleTwiceRestores | frontend/components/profile/ProfileEditModal.tsx:41-51 | toggling an absent item twice restores the list |
| ProfileEdit.ToggleStaysWithin | frontend/components/profile/ProfileEditModal.tsx:16-21 | toggling an offered option keeps a list of options within the options |
| ProfileEdit.ProfileEditor.ToggleSkill | frontend/components/profile/ProfileEditModal.tsx:41-45 | the skills become their toggle; nothing else changes |
| ProfileEdit.ProfileEditor.ToggleLimitation | frontend/components/profile/ProfileEditModal.tsx:47-51 | the limitations become their toggle; nothing else changes |
| ProfileEdit.ProfileEditor.HandleSave | frontend/components/profile/ProfileEditModal.tsx:53-68 | the current lists are sent; onSave then onClose run only on success; saving ends false either way; the lists are unchanged |
| JobCard.FirstIndex | frontend/components/dashboard/JobCard.tsx:39 | none iff the character is absent; otherwise the first position holding it |
| JobCard.ReplaceFirstChangesFirstOnly | frontend/components/dashboard/JobCard.tsx:39 | only the first underscore is replaced; every other character stays |
| JobCard.StatusLabel | frontend/components/dashboard/JobCard.tsx:39 | the label has the status's length, its first character upper-cased, and the rest with its first underscore made a space |
| JobCard.StatusLabelUnderscores | frontend/components/dashboard/JobCard.tsx:39 | an underscore after the first character becomes a space iff no earlier one follows the first character |
| JobCard.ReplaceFirstAbsent | frontend/components/dashboard/JobCard.tsx:39 | without an underscore the replacement changes nothing |
| JobCard.InProgressLabel | frontend/components/dashboard/JobCard.tsx:36-39 | "in_progress" reads "In progress" |
| JobCard.AcceptedLabel | frontend/components/dashboard/JobCard.tsx:34-39 | "accepted" reads "Accepted" |
| JobCard.StatusBadge | frontend/components/dashboard/JobCard.tsx:32-40 | a badge is shown iff the status is non-empty; green iff accepted, blue iff completed, yellow iff in progress |
| JobCard.Tags | frontend/components/dashboard/JobCard.tsx:67-79 | the row is shown iff there are tags; it shows the first min(4, n) of them; "+N more" appears iff n > 4, and shown plus N is n |
| JobCard.TagsAccountedFor | frontend/components/dashboard/JobCard.tsx:69-79 | the shown tags and the counted remainder make up the whole list |
| EthLeaderboard.SepoliaHexIsChainId | frontend/components/ethereum/EthLeaderboard.tsx:85-91 | the switch request's hex chain id denotes the chain id the network check expects |
| EthLeaderboard.BeforeIsStrictTotalOrder | frontend/components/ethereum/EthLeaderboard.tsx:158 | the intended order (larger total first, then lower id) is irreflexive, asymmetric, transitive and total on distinct ids |
| EthLeaderboard.SourceComparatorInconsistentOnTies | frontend/components/ethereum/EthLeaderboard.tsx:158 | on equal totals the comparator answers "first argument first" both ways round |
| EthLeaderboard.RankingOrdered | frontend/components/ethereum/EthLeaderboard.tsx:147-158 | the leaderboard is ordered by total, largest first, ties by id |
| EthLeaderboard.RankingPermutes | frontend/components/ethereum/EthLeaderboard.tsx:147-158 | the leaderboard is a permutation of the registry entries |
| EthLeaderboard.EntryOfRegistry | frontend/components/ethereum/EthLeaderboard.tsx:147-155 | a registry entry has an id from 1 to 5, that id's registry name and the total read at its position |
| EthLeaderboard.RankingEntries | frontend/components/ethereum/EthLeaderboard.tsx:30-36 | the leaderboard has five entries, each with an id from 1 to 5, named from the registry and carrying its own total |
| EthLeaderboard.RankingListsEachOrgOnce | frontend/components/ethereum/EthLeaderboard.tsx:30-36 | no organisation appears twice on the leaderboard, and every registry id appears |
| EthLeaderboard.RankedUnique | frontend/components/ethereum/EthLeaderboard.tsx:158 | two ordered arrangements of the same entries are equal |
| EthLeaderboard.RankingIsTheRankedOrder | frontend/components/ethereum/EthLeaderboard.tsx:147-158 | the leaderboard is the only ordered arrangement of the registry entries |
| EthLeaderboard.RankedFive | frontend/components/ethereum/EthLeaderboard.tsx:158 | five entries with non-increasing totals and increasing ids are in leaderboard order |
| EthLeaderboard.TiedTotalsRankById | frontend/components/ethereum/EthLeaderboard.tsx:147-158 | for totals 2, 2, 0.5, 0, 0 ether the order is ids 1 to 5 |
| EthLeaderboard.SameAddressIgnoresCase | frontend/components/ethereum/EthLeaderboard.tsx:116 | the admin comparison is symmetric, ignores case character by character, and is unaffected by lower-casing either side |
| EthLeaderboard.AccountLabel | frontend/components/ethereum/EthLeaderboard.tsx:304 | an address of at least 10 characters shows as its first 6, "...", and its last 4, 13 characters in all; any label starts with the address's first min(6, n) characters |
| EthLeaderboard.RefreshOutcomes | frontend/components/ethereum/EthLeaderboard.tsx:129-163 | a failed stats read changes nothing; otherwise the four stats are the reads; a failed leaderboard read keeps the old board; otherwise the board is the ordered registry |
| EthLeaderboard.RankOrgs | frontend/components/ethereum/EthLeaderboard.tsx:147-158 | the in-place sort of the registry entries yields the specification leaderboard |
| EthLeaderboard.ConfirmCompletes | frontend/components/ethereum/EthLeaderboard.tsx:166-261 | a confirmed write's statuses, calls and resulting state complete the write protocol |
| EthLeaderboard.FailureCompletes | frontend/components/ethereum/EthLeaderboard.tsx:166-261 | a failed write's statuses, calls and resulting state complete the write protocol |
| EthLeaderboard.LifecycleTerminatesOnce | frontend/components/ethereum/EthLeaderboard.tsx:166-261 | a write shows pending statuses and then exactly one terminal one, confirmed with the submitted hash or failed with none |
| EthLeaderboard.LeaderboardClient.constructor | frontend/components/ethereum/EthLeaderboard.tsx:54-68 | the initial state: no contract or account, zero stats, an empty board, organisation 1 selected |
| EthLeaderboard.LeaderboardClient.SelectOrg | frontend/components/ethereum/EthLeaderboard.tsx:62 | only the selection changes |
| EthLeaderboard.LeaderboardClient.LoadContractData | frontend/components/ethereum/EthLeaderboard.tsx:129-163 | without a contract nothing happens; otherwise it makes the refresh calls, and the round state becomes the refreshed state |
| EthLeaderboard.LeaderboardClient.ConfirmWrite | frontend/components/ethereum/EthLeaderboard.tsx:166-261 | a confirmed write shows submitting, waiting and confirmed, makes the submission, the wait and one refresh, and leaves the confirmed state |
| EthLeaderboard.LeaderboardClient.FailWrite | frontend/components/ethereum/EthLeaderboard.tsx:166-261 | a failed write shows submitting, waiting only once submitted, then failed; it makes only the calls before the failure and leaves the failed state |
| EthLeaderboard.LeaderboardClient.ExecuteWrite | frontend/components/ethereum/EthLeaderboard.tsx:166-261 | one status lifecycle; loading ends false; a confirmed write makes the submission, the wait and one refresh; a failed one refreshes nothing and keeps the round state |
| EthLeaderboard.LeaderboardClient.HandleDonate | frontend/components/ethereum/EthLeaderboard.tsx:166-191 | no contract: nothing; otherwise a donation to the selected organisation, with the error cleared and set to "Donation failed" on failure |
| EthLeaderboard.LeaderboardClient.HandleFundPool | frontend/components/ethereum/EthLeaderboard.tsx:194-217 | no contract: nothing; otherwise a pool funding, with the error cleared at the start |
| EthLeaderboard.LeaderboardClient.HandleStartRound | frontend/components/ethereum/EthLeaderboard.tsx:220-239 | without a contract or admin rights nothing happens; otherwise a round start that leaves the error line alone |
| EthLeaderboard.LeaderboardClient.HandleSelectWinner | frontend/components/ethereum/EthLeaderboard.tsx:242-261 | the same for the payout |
| EthLeaderboard.LeaderboardClient.ClickConnect | frontend/components/ethereum/EthLeaderboard.tsx:281-287 | a click while loading does nothing; otherwise it does exactly what the connect handler does: its calls, error line, contract and account binding, admin flag and refreshed round; the selection and status are untouched |
| EthLeaderboard.LeaderboardClient.ClickDonate | frontend/components/ethereum/EthLeaderboard.tsx:391-397 | a click while loading (or before connecting) does nothing; otherwise the donation completes the write protocol |
| EthLeaderboard.LeaderboardClient.ClickFundPool | frontend/components/ethereum/EthLeaderboard.tsx:414-420 | the same for the pool funding |
| EthLeaderboard.LeaderboardClient.ClickStartRound | frontend/components/ethereum/EthLeaderboard.tsx:425-443 | a click does nothing unless the admin buttons are enabled (connected admin, not loading, round can end) |
| EthLeaderboard.LeaderboardClient.ClickSelectWinner | frontend/components/ethereum/EthLeaderboard.tsx:425-444 | the same for the payout button |
| EthLeaderboard.LeaderboardClient.BindContract | frontend/components/ethereum/EthLeaderboard.tsx:108-122 | the contract and account are bound; a failed admin read sets the generic error, a successful one sets admin by case-insensitive comparison and refreshes |
| EthLeaderboard.LeaderboardClient.ConnectWallet | frontend/components/ethereum/EthLeaderboard.tsx:71-126 | without a wallet only the error is set; a failed account, signer or network request, a refused chain switch (with its own message for an unknown chain) or a missing contract address ends with its error and no connection; otherwise the contract and account are bound, a failed admin read sets the generic error, and a successful one sets admin by case-insensitive comparison and refreshes; loading ends false |

## Left out

- Ethereum library calls (provider, signer, contract, `tx.wait()`) are an abstract ledger interface with resolved or rejected replies.
- `parseEther`, `formatEther` and the `toFixed(4)` display are library code and floating point; the parsed amount is a parameter, and amounts are integers of wei.
- `Number()` on the round counter is not modelled; the round is a natural number.
- The 15-second polling interval and the interleaving of asynchronous handlers are not modelled; each handler runs to completion.
- An empty accounts array from the wallet is treated as a rejected request.
- The withdraw entry of the contract interface is never called by the component and is not modelled.
- Text.CharField: the framework's refusal of lone surrogate characters is not modelled, because a Dafny `char` is a Unicode scalar value and cannot hold one; NUL characters are modelled.
- JsonValue.JObject: an object is a list of entries and may repeat a key, which a decoded Python dict cannot. The model does not state the distinct-keys well-formedness that decoding guarantees, so `TruthyKeys` and `FlagsToRequirements` are also defined on objects that never occur.
- ProfileEdit.ProfileEditor.HandleSave: the "Saving..." state while the request is in flight, and the disabled save button, are visible only while another handler interleaves; each handler runs to completion, so the model keeps only the flag's final value.
- Case mapping is ASCII only; JavaScript's and Python's full Unicode mappings are not modelled.
- REST framework and ORM machinery are not modelled: parsing, null inputs to text fields, the email-format check and Django's password validators. The password verdict is the parameter `passwordAccepted`.
- RateLimit.Prompt: the AI endpoints read `prompt` straight from the request body and call `.strip()` on it. A prompt sent as JSON null or as a non-string therefore raises, which is a server error. `Option<string>` cannot express that input, so the model has only a missing prompt (taken as "") and a string prompt.
- Registration.Accounts.Register: `create_user` stores a hash of the password, but `User.password` holds the stripped plain text; password hashing is not modelled.
- Python floats (latitude, longitude, match scores and distances) are exact Dafny `real`s. Rounding, NaN and infinities are not modelled; no operation in the model depends on them.
- Django's email normalisation in `create_user` is not modelled, because the user model is not part of this model; emails are stored as validated.
- An update value of the wrong type for its field keeps the field's old value in the model. The source stores any value with `setattr` and leaves coercion or failure to `job.save()`, which is ORM code outside this model.
- The Job model's defaults are not part of this model; a created job is taken to be open and active, as the matching query requires.
- Match scoring, distance, the bounding-box prefilter, badges, job completion, the badge and profile endpoints are not modelled. Scores and distances are inputs (`ScoredJob`).
- Ties in `order_by('-created_at')` are left to the database; `Chat.Latest` picks the first in listing order.
- Cache expiry is the separate step `ExpireKey` rather than a clock. Every increment resets the key's timeout to the one-hour window, so in the source the window runs from the last counted request. Which key expires when is not modelled.
- Concurrent requests between reading and writing a counter are not modelled.
- `build_absolute_uri` is not modelled; the image response carries the service's URL as given.
- The text of a configuration error from an AI service is a parameter.
- The acceptance tests in server/matching/tests/test_acceptance.py expect a 201 status and a setup without an acceptance, which the code does not match; the model follows the code.
- HTTP client wrappers, date formatting, fixtures, URL routing and admin registrations are not modelled.

## Findings

| source | as written | input that shows it | evidently intended | confidence | as-written member | corrected member |
|---|---|---|---|---|---|---|
| frontend/components/ethereum/EthLeaderboard.tsx:158 | the comparator returns -1 whenever b's total is not larger, so on a tie it says "a first" for both argument orders | two organisations with equal totals, e.g. both 0 wei before any donation | a consistent order: larger total first, and a fixed order among ties | not executed | EthLeaderboard.SourceComparatorInconsistentOnTies | EthLeaderboard.BeforeIsStrictTotalOrder |

The rest of the model ranks with the corrected order, which is a stable
descending sort over the registry's ascending ids. `EthLeaderboard.RankingIsTheRankedOrder`
proves that this yields the single arrangement that is ordered by total
with ties by id.
