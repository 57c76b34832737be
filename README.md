# Ideias portal: a verified model of the kernel and the client views

The idea portal lets employees sign up (with email verification and password reset by
single-use links, or with Google), submit ideas to campaigns, vote and comment on them, and
follow them on a feed and on a Kanban board. This project models, in Dafny:

- the server `Kernel` (`api/kernel.php`) as a class whose fields are the database tables
  and `$_SESSION`, one method per public operation, with the error codes returned in their
  order of checks (`kernel.dfy`, `kernel_types.dfy`);
- the single-use, time-limited tokens behind email verification and password reset
  (`tokens.dfy`);
- the simulated AI assessment `computeAI` (`scoring.dfy`) and the string helpers it needs:
  lower-casing, substring search and the UTF-8 byte length `strlen` reports (`text.dfy`);
- the CPF field of the `Input` component: the `XXX.XXX.XXX-XX` mask and the modulo-11
  check digits (`ui.dfy`);
- the idea records kept in the browser and the `filter` and `map` they go through
  (`cards.dfy`), the Kanban board with its optimistic, reverted drag-and-drop move
  (`kanban.dfy`), and the home feed with its search and vote counter (`home.dfy`).

Tables that only grow are sequences, and a row's id is taken to be its position plus one
(the AUTO_INCREMENT counter is assumed to have no gaps; see "Left out"). `idea_votes` and `user_badges` are sets of pairs, because their keys make a repeated
insert fail and the kernel swallows that failure. `oauth_identities` is a map from
(provider, provider user id) to a user id. SHA-256 and `password_hash` are symbolic and
injective. The clock (`now`), the random token and the decoded Google claims are
parameters. A statement the database refuses through a foreign key, and that the kernel
does not catch, is the error `StorageFailure`.

Where the kernel's own documentation and its code differ, the model follows the code:
`updateIdea` checks no session, `voteIdea` answers `ok` with a count of 0 for an idea that
does not exist, and `computeAI` skips the campaign lookup for campaign id 0 (PHP treats 0
as false).

## Model

| member | source | states |
|---|---|---|
| Api.Kernel.Signup | api/kernel.php:364-391 | `dados_invalidos` for an empty email or password, then `email_existente` for a taken email; otherwise exactly one user row is appended (unverified, hashed password, falsy name stored as NULL) with one 2-hour verification row for it, and the returned link carries its id and token; on error nothing is stored; emails stay unique |
| Api.Kernel.Login | api/kernel.php:428-453 | succeeds exactly when some user with this email has a hash that verifies the password; an unknown email and a wrong password give the same `credenciais_invalidas` and leave the session as it was; on success the session gets uid, name, email and register, and the answer reports that user's id and verified flag |
| Api.Kernel.Logout | api/kernel.php:459-465 | the session becomes empty |
| Api.Kernel.VerifyEmail | api/kernel.php:477-499 | succeeds exactly when the token check of the user's latest verification row succeeds; on failure returns that check's error and changes nothing; on success marks that one row used and sets that user's verified flag, nothing else |
| Api.Kernel.RequestPasswordReset | api/kernel.php:509-525 | always answers `ok`, so it does not reveal whether the email exists; a known email gets exactly one new 1-hour reset row, an unknown one gets none |
| Api.Kernel.ResetPassword | api/kernel.php:536-561 | an empty password gives `senha_invalida` before any token lookup; otherwise succeeds exactly when the latest reset row's check succeeds, then replaces only that user's hash and marks only that row used; errors change nothing |
| Api.Kernel.LoginWithGoogle | api/kernel.php:973-1011 | a failed tokeninfo call, then a wrong `aud`, a wrong `iss`, a missing email, each with its code and no change; on success an existing (google, sub) link is reused without storing anything, else a same-email user is linked, else a verified user without a password is created and linked; the session gets uid, email and name |
| Api.Kernel.CreateIdea | api/kernel.php:635-660 | `nao_autenticado` without a session, then `dados_invalidos` for an empty title or description, and a failure for a campaign id that names no campaign; it succeeds exactly when none of these holds, and then one idea is appended with status `EM_ELABORACAO`, the author from the session and the `computeAI` scores; the `primeira_ideia` badge is added exactly when the author had no idea before; errors store nothing |
| Api.Kernel.VoteIdea | api/kernel.php:732-744 | `nao_autenticado` stores nothing; otherwise the (idea, user) pair is added (a repeat is a no-op; an unknown idea adds nothing) and the answer is the number of distinct voters of that idea |
| Api.Kernel.CommentIdea | api/kernel.php:771-778 | `nao_autenticado`, then `dados_invalidos` for an empty text, then a failure for an idea that does not exist; it succeeds exactly when none of these holds, and then one comment stamped with the current time is appended (so comments stay in `created_at` order while the clock does not go backwards) and the answer is the idea with all its comments, the new one last |
| Api.Kernel.UpdateIdea | api/kernel.php:937-960 | `missing_id`, then `no_fields` when neither title nor description is present; on success only the idea with that id changes, and only in the fields present; every other idea is unchanged and errors change nothing |
| Api.Kernel.CreateCampaign | api/kernel.php:584-590 | fails exactly for an empty title, with `dados_invalidos` and no change; otherwise appends one `ATIVA` campaign, with falsy description and deadline stored as NULL, and returns its id |
| Api.Kernel.ListCommentsTextsByIdea | api/kernel.php:805-818 | the keys are exactly the authors of comments on the idea, and each maps to the text and time of that author's last comment |
| Api.Kernel.SessionUid | api/kernel.php:637 | present exactly when `$_SESSION['uid']` holds an integer |
| Api.LastCommentPerUser | api/kernel.php:810-817 | the overwriting loop leaves every author of a row mapped to their last row and no one else in the map |
| Api.FindUserByEmail | api/kernel.php:369-371 | finds a row with this email, and finds none exactly when no row has it |
| Api.IdeasBy | api/kernel.php:648-650 | the count of an author's ideas is zero exactly when no idea has that author |
| Api.CommentsOf | api/kernel.php:807 | exactly the comments on the idea, in insertion (creation) order |
| Api.CommentsOfAppend | api/kernel.php:775-776 | a new comment on an idea becomes the last of that idea's comments |
| Api.VoteAddsVoter | api/kernel.php:736 | a vote adds its voter to that idea's voters and changes no other idea's voters |
| Api.VoteCountStep | api/kernel.php:735-743 | a repeated vote leaves the count unchanged; a first vote raises it by one |
| Api.VerifyTwice | api/kernel.php:485-496 | after a successful verification, the same token again gives `token_usado` |
| Api.ResetTwice | api/kernel.php:547-559 | after a successful reset, the same token again gives `token_usado` |
| Api.SignupThenVerify | api/kernel.php:380-384 | the token a signup issues verifies that account at any time up to two hours later |
| Api.SignupTwice | api/kernel.php:369-373 | a second signup with the same email gives `email_existente` and adds no user |
| Api.VoteTwice | api/kernel.php:735-743 | two votes give the same answer, and the count rises by at most one |
| Api.CreateIdeaTwice | api/kernel.php:640-656 | two ideas in a row by one author both succeed or both fail; on success both are stored with consecutive ids, and the `primeira_ideia` badge is added at most once, exactly when the author had no idea before the first |
| Api.CommentThenList | api/kernel.php:805-818 | after a successful comment, the per-author listing of that idea maps the commenter to the text and time just posted |
| Api.GoogleAccountHasNoPassword | api/kernel.php:998 | an account created by Google login has no password hash, so no password logs it in |
| Api.ResetThenLogin | api/kernel.php:557-558 | after a successful reset, the new password logs in to the same account |
| KernelTypes.NullIfFalsy | api/kernel.php:376 | `?: null` gives NULL exactly for "" and "0", and keeps any other string |
| Tokens.LatestIndex | api/kernel.php:479-481 | finds the row `ORDER BY id DESC LIMIT 1` returns, and finds none exactly when the user has no row |
| Tokens.CheckToken | api/kernel.php:479-494 | succeeds exactly when the latest row is unused, unexpired (`now <= expires_at`) and has the hash of the token; `token_usado`, `token_expirado` and `token_invalido` each hold exactly in their case, in that order of checks |
| Tokens.MarkUsed | api/kernel.php:496 | only the consumed row changes, and only its `used_at` |
| Tokens.ReplayIsUsed | api/kernel.php:485-496 | once a row is consumed, any token at any later time gives `token_usado` |
| Tokens.FreshTokenAccepted | api/kernel.php:380-384 | a newly issued row accepts its own token up to and including its expiry |
| Tokens.ExpiryBoundary | api/kernel.php:488-491 | a token is accepted at exactly `expires_at` and refused as expired one second later |
| Tokens.OlderTokenUnreachable | api/kernel.php:479 | once a newer row exists, an older row's different token is refused |
| Scoring.Score | api/kernel.php:618-619 | the score lies between 30 and 100 |
| Scoring.ScoreIsPhpFormula | api/kernel.php:618-619 | the integer clamp of the byte length divided by 5 equals PHP's float `min(100, max(30, strlen / 5))` truncated to int |
| Scoring.ScoreMonotone | api/kernel.php:618 | a longer description never scores lower |
| Scoring.CampaignTitle | api/kernel.php:606-610 | a campaign title is compared exactly when the id names an existing campaign (NULL and 0 skip the lookup) |
| Scoring.Compat | api/kernel.php:605-616 | the compatibility is 75, 80, 90 or 100: 80 exactly without a campaign, 100 exactly when the text mentions "digital" and the campaign title "transformação", 90 exactly when otherwise the text mentions "eficiência" |
| Scoring.ComputeAI | api/kernel.php:603-620 | the score lies in [30, 100] and the compatibility is 80 exactly when no existing campaign is named |
| Text.Lower | api/kernel.php:611-612 | lower-casing keeps the length and lowers each character |
| Text.LowerIdempotent | js/components/HomeView.js:130-131 | lower-casing an already lower-cased string changes nothing |
| Text.ContainsIffOccurs | api/kernel.php:614-615 | the substring search succeeds exactly when the needle occurs at some position |
| Text.Utf8Length | api/kernel.php:618 | the byte length is at least the character count, and equals it for ASCII text |
| Ui.Digits | js/components/ui/index.js:155 | only digits are kept, and never more characters than the input has |
| Ui.DigitsMembers | js/components/ui/index.js:155 | a character is kept exactly when it occurs in the input and is a digit |
| Ui.KeptDigits | js/components/ui/index.js:155 | at most 11 digits, a prefix of the input's digits, and all of them when there are at most 11 |
| Ui.MaskCorrect | js/components/ui/index.js:157-160 | each mask shape puts dots at positions 3 and 7 and a dash at 11, digits elsewhere, and removing the separators gives the digits back |
| Ui.FormatCPF | js/components/ui/index.js:153-161 | the result is a well-formed CPF mask whose digits are the first 11 digits of the input |
| Ui.FormatIdempotent | js/components/ui/index.js:153-161 | formatting a formatted value changes nothing |
| Ui.CheckDigit | js/components/ui/index.js:167-169 | a check digit is between 0 and 9 |
| Ui.ValidateCPF | js/components/ui/index.js:164-178 | the two weighted-sum loops accept exactly the valid CPFs: 11 digits, not all equal, both check digits right |
| Ui.ValidAfterFormat | js/components/ui/index.js:197-208 | validating the masked value gives the validity of the typed value when it has at most 11 digits |
| Ui.TooManyDigitsInvalid | js/components/ui/index.js:165-166 | more than 11 digits is never valid, while the masked value is judged on its first 11 digits |
| Ui.RepdigitsPassCheckDigits | js/components/ui/index.js:166 | every repeated-digit number passes both check digits, so the repdigit test is what rejects them |
| Ui.SampleIsValid | js/components/ui/index.js:164-178 | 529.982.247-25 is accepted, so the validator does not reject everything |
| Ui.CpfInput.HandleInputChange | js/components/ui/index.js:194-212 | the local value becomes the mask of the typed text (at most 14 characters); `onChange`, when present, receives that value and its validity |
| Ui.CpfInput.constructor | js/components/ui/index.js:184 | the local value starts as the `value` prop, or "" when it is absent |
| Ui.CpfInput.SyncValue | js/components/ui/index.js:187-192 | a `value` prop equal to the local value changes nothing; any other is masked (an absent one as "") and becomes the local value |
| Cards.Filter | js/components/HomeView.js:129 | keeps exactly the elements that satisfy the predicate |
| Cards.FilterIsSubsequence | js/components/HomeView.js:129 | the kept elements stay in their original order |
| Cards.WithStatus | js/components/KanbanView.js:136-138 | same length and order; only the status of the cards with that id changes |
| Cards.WithVotes | js/components/HomeView.js:112-116 | same length and order; only the vote count of the cards with that id changes |
| Cards.AbsentIdUntouched | js/components/KanbanView.js:136-138 | a list without that id is returned unchanged by either rewrite |
| Kanban.Column | js/components/KanbanView.js:211-212 | a column holds exactly the cards whose status equals its id |
| Kanban.Outside | js/components/KanbanView.js:164-170 | the cards shown in no column are exactly those whose status is none of the five ids |
| Kanban.ColumnKeepsOrder | js/components/KanbanView.js:211-212 | a column keeps the board's order |
| Kanban.ColumnsPartition | js/components/KanbanView.js:204 | the five column badges plus the cards with an unknown status add up to the number of ideas |
| Kanban.MoveChangesColumn | js/components/KanbanView.js:136-138 | after a move the dragged card is in the target column and nothing with its id is left in the old one |
| Kanban.RevertRestores | js/components/KanbanView.js:143-147 | reverting with the old status gives back the list from before the optimistic move |
| Kanban.Board.Load | js/components/KanbanView.js:71-74 | only a successful answer replaces the ideas |
| Kanban.Board.HandleDragStart | js/components/KanbanView.js:98-102 | the dragged card is remembered |
| Kanban.Board.HandleDrop | js/components/KanbanView.js:129-151 | no drag, or a drop on the card's own status, changes nothing and keeps the drag; otherwise the dragged card's status is set, set back if the update throws (with the alert "Erro ao mover ideia. Tente novamente."), and the drag is cleared either way |
| Kanban.FailedDropIsUndone | js/components/KanbanView.js:133-150 | a drop whose update throws leaves the list exactly as it was, alerts, and clears the drag |
| Home.FeedFilter | js/components/HomeView.js:129-132 | the feed holds exactly the ideas whose lower-cased title or description contains the lower-cased search |
| Home.FeedKeepsOrder | js/components/HomeView.js:129-132 | the feed keeps the loaded order |
| Home.EmptyFilterKeepsAll | js/components/HomeView.js:129-132 | an empty search shows every idea |
| Home.FilterIgnoresCase | js/components/HomeView.js:129-132 | searching for the lower-cased text shows the same feed as the text itself |
| Home.VoteCommutesWithFilter | js/components/HomeView.js:112-116 | a vote update and the search commute, because a vote touches neither title nor description |
| Home.Reaction | js/components/HomeView.js:111-121 | a successful vote updates the counter; `nao_autenticado`, and only it, opens the login; any other error, and only it, alerts `Erro ao votar: ` followed by the code |
| Home.Feed.Mount | js/components/HomeView.js:93-99 | only a successful answer replaces the ideas, and loading ends either way |
| Home.Feed.SetFilter | js/components/HomeView.js:156 | the search text becomes what was typed |
| Home.Feed.Shown | js/components/HomeView.js:186-195 | nothing is shown while loading; afterwards exactly the ideas that match the search |
| Home.Feed.HandleVote | js/components/HomeView.js:109-122 | a successful vote sets that idea's counter to the server's count and changes nothing else; on any error the list is unchanged |

## Left out

- Schema creation, the seeding of demo data (`seedDatabase`) and the database connection: the store starts empty. The `users` table is taken to carry the `register` column that `login` reads (api/kernel.php:430-449); the schema `migrate` creates (api/kernel.php:160-168) has no such column, and against it `login`'s SELECT would throw.
- Random tokens, the SHA-256 and `password_hash` algorithms and their salts: tokens are parameters and the hashes are symbolic and injective. Injectivity ignores the bcrypt fallback used when Argon2id is missing (api/kernel.php:350): bcrypt reads only the first 72 bytes, so two long passwords sharing a 72-byte prefix verify against each other's hash.
- The files the kernel writes in place of emails, and the tokeninfo HTTP call of `loginWithGoogle`: the call's answer is the `claims` parameter (`None` when it failed), and JSON values that are not strings are not modelled.
- The date format of `expires_at` and of comment times: times are integer seconds and the clock is a parameter.
- Reads that are single SQL queries (`listIdeas`, `getIdea` apart from `commentIdea`'s answer, `leaderboard`, `dashboardStats`, `getPhoto`, `countVotesForIdea`, `listCampaigns`, `listBadgesForUser`, `getUserById`) and the updates `updateIdeaStatus` and `update_register`: they are outside the modelled operations.
- The commented-out webhook `triggerN8NWebhook`, the HTTP routing of `api/index.php` and the fetch wrapper `js/services/api.js`: the outcome of `api.updateStatus` on the board is the `updateThrows` parameter, and the ideas and vote answers are parameters. The wrapper catches every error and answers `{ok: false, error: 'network_error'}` (js/services/api.js:84-88), so in the program as written `updateStatus` never rejects: `updateThrows` is always false, an `{ok: false}` answer leaves the card in its new column, and the revert and alert of Kanban.Board.HandleDrop and Kanban.FailedDropIsUndone are never reached by users.
- Ids are gap-free: InnoDB consumes an AUTO_INCREMENT value on an INSERT that a foreign key refuses (`createIdea` with an unknown campaign, api/kernel.php:640-641), after which real idea ids run ahead of row positions; the model numbers every row by its position.
- Case-insensitive email collation in MySQL: emails compare exactly.
- Text.Lower: lowers ASCII and Latin-1 capitals only, not the rest of Unicode that `mb_strtolower` and `toLowerCase` handle.
- Text.Contains: searches characters, where PHP's `strpos` searches UTF-8 bytes; the two agree for the whole-character keywords used.
- Api.Kernel.ListCommentsTextsByIdea: comments with equal `created_at` are taken in insertion order, which MySQL does not promise.
- Api.Kernel.CommentIdea: the answer lists the idea's comments in insertion order ("the new one last"), while `getIdea` sorts them by `created_at` (api/kernel.php:717), a DATETIME; comments posted in the same second tie, and MySQL does not fix their order.
- Api.CommentsOf: insertion order is taken for `ORDER BY created_at ASC`; the two differ only on equal `created_at`, whose order MySQL does not promise.
- Api.Kernel.Signup: strings are taken to fit their columns; an email or name longer than VARCHAR(255) (api/kernel.php:162-163), which MySQL refuses with an exception or truncates, is stored whole and the call succeeds.
- Api.Kernel.LoginWithGoogle: strings are taken to fit their columns; a Google email or name longer than VARCHAR(255) is stored whole instead of being refused or truncated.
- Api.Kernel.CreateIdea: strings are taken to fit their columns; a title longer than VARCHAR(255) (api/kernel.php:218), or a description beyond TEXT's 65535 bytes, is stored whole and the call succeeds, where MySQL refuses or truncates it.
- Api.Kernel.CommentIdea: strings are taken to fit their columns; a text beyond TEXT's 65535 bytes (api/kernel.php:249) is stored whole instead of being refused or truncated.
- Api.Kernel.UpdateIdea: strings are taken to fit their columns; a new title longer than VARCHAR(255) is stored whole instead of being refused or truncated.
- Api.Kernel.CreateCampaign: strings are taken to fit their columns; a title longer than VARCHAR(255) (api/kernel.php:208) is stored whole and the call succeeds, where MySQL refuses or truncates it.
- Api.Kernel.CreateCampaign: the deadline is stored as given; MySQL's date conversion is not modelled.
- React rendering, the modal for idea details and the board reload after closing it, and the drag-over handler.
- The non-CPF branch of `Input`, which forwards the event unchanged.
- Asynchrony: each handler runs to completion on the state it starts from, so updates interleaving with a pending request are not modelled.
