# Autopitch in Dafny

Autopitch writes cold sales emails. A signed-in user fills in five fields: the
prospect's name, job title and company, a pain point, and what the user offers.
Two server actions then do the work. `generatePitch` validates the fields and
picks a prompt: a Pro user's own prompt with `{{placeholder}}`s filled in, or a
fixed default prompt. It streams the model's answer and prefixes a subject line.
It then stores one row in the `pitches` table. The account actions work on
that table:

- `checkProStatus` reads the most recent row;
- `countUserPitches` counts the user's rows;
- `updateProStatus` rewrites the Pro columns of all the user's rows.

The dashboard page keeps the form state. Its free-tier gate is meant to close
once five pitches are counted, but as written it never does (see below).

The model has eight modules:

| file | module | what it models |
|---|---|---|
| `wrappers.dfy` | `Wrappers` | `Option` and `Result` |
| `text.dfy` | `Text` | JavaScript's global literal `replace`, `trim()`, `join` and the stream concatenation |
| `schema.dfy` | `Schema` | the form schema and its issue list |
| `prompt.dfy` | `Prompt` | custom or default prompt, and placeholder substitution |
| `ledger.dfy` | `Ledger` | the `pitches` table: a class `PitchTable` over a sequence of rows, plus the pure queries on rows |
| `pitch_actions.dfy` | `PitchActions` | `generatePitch`, the `users` lookup, and the two history reads |
| `user_actions.dfy` | `UserActions` | the three account actions |
| `homepage.dfy` | `HomePage` | the page as a class `Page`, one method per handler |

Outside effects become inputs to the model:

- **Clerk:** what `auth()` gives is a `Session`: a user id, no user, or a thrown error. An empty user id counts as no user, as `!session?.userId` does. Every action calls `auth()` inside its `try`, so a throwing `auth()` ends the same way as a database fault. For `generatePitch` that is the catch's fixed message: one text for an `Error`, another for any other thrown value. The other actions give their fixed failure message.
- **The text-generation model:** a function from the prompt to either every streamed chunk, or the chunks received before a fault.
- **Database faults:** a flag or an optional thrown value.
- **`users` table:** a query result given as a parameter.

SQL ordering by `created_at` is read as insertion order, so a user's latest row
is the last one appended.

A consequence the contracts expose: the page reads `result.pitchCount` and
`result.isPro`, but neither action returns those fields (`FromGenerate` and
`FromLatest`). So the page's `isPro` stays `false` and `pitchCount` stays `0`.
As a result, the free-tier gate never closes and the custom-prompt section
never shows. `HomePage.ServerRepliesLeaveGateOpen` states this for a whole visit:
one mount, then any sequence of typing and submissions, each server call
resolving or rejecting as it may.

## Model

| member | source | states |
|---|---|---|
| Schema.FieldIssues | app/actions/generatepitch.actions.ts:10-17 | a field reports at most one issue, none exactly when its raw length is within 1..max, with the field's own "required" message when empty and the length message otherwise |
| Schema.Validate | app/actions/generatepitch.actions.ts:9-20 | parsing succeeds, returning the request itself, exactly when all five fields are in bounds; otherwise it fails with the non-empty issue list |
| Schema.IssuesNameEveryViolation | app/actions/generatepitch.actions.ts:9-20 | a field appears among the issues exactly when it is out of bounds (all issues are collected, not just the first) |
| Schema.IssuesNameEachFieldOnce | app/actions/generatepitch.actions.ts:9-20 | no field is reported twice |
| Text.Join | app/actions/generatepitch.actions.ts:137 | `.join(sep)`: the parts with the separator between neighbours; what it keeps is stated by `OccursInJoin` and `IssueMessageListsEveryIssue` |
| Schema.IssueMessage | app/actions/generatepitch.actions.ts:134-138 | the issues' messages joined with ", " in issue order; its meaning is stated by `IssueMessageListsEveryIssue` |
| Schema.IssueMessageListsEveryIssue | app/actions/generatepitch.actions.ts:134-138 | the failure message is the single issue's message, or contains every issue's message |
| Text.Trim | app/actions/generatepitch.actions.ts:54 | `trim()`: leading and trailing whitespace cut off, so the result is no longer than the text and neither starts nor ends with whitespace; what is cut off is stated by `TrimIsMiddle`, emptiness by `TrimEmptyIffBlank` |
| Text.TrimIsMiddle | app/actions/generatepitch.actions.ts:54 | the result of `trim()` is the part of the text between an all-whitespace prefix and an all-whitespace suffix |
| Text.TrimEmptyIffBlank | app/actions/generatepitch.actions.ts:51-55 | `trim()` of a text is empty exactly when the text is all whitespace |
| Text.ReplaceAll | app/actions/generatepitch.actions.ts:58-62 | a global replace of a literal pattern, left to right, without rescanning the inserted text; its meaning is stated by `ReplaceAllAbsent` and, for the prompt, by `SubstituteFillsTemplate` |
| Text.ReplaceAllAbsent | app/actions/generatepitch.actions.ts:57-62 | a global replace of a pattern that does not occur leaves the text unchanged |
| Prompt.UsesCustomPrompt | app/actions/generatepitch.actions.ts:51-55 | the guard: Pro, a custom prompt present and non-empty, and non-blank after `trim()`; stated by `ComposePromptChoice` |
| Prompt.ComposePrompt | app/actions/generatepitch.actions.ts:49-80 | the substituted custom prompt when the guard holds, else the default prompt; stated by `ComposePromptChoice` |
| Prompt.ComposePromptChoice | app/actions/generatepitch.actions.ts:49-80 | the custom prompt, substituted, is used exactly for a Pro user whose prompt has a non-whitespace character; every other case silently uses the default prompt |
| Prompt.Substitute | app/actions/generatepitch.actions.ts:57-62 | the five replacements in source order; its meaning is stated by `SubstituteFillsTemplate`, `SubstituteLeavesPlainText` and `SubstitutionOrderMatters` |
| Prompt.SubstituteLeavesPlainText | app/actions/generatepitch.actions.ts:57-62 | a text containing none of the five placeholders comes out unchanged |
| Prompt.SubstituteFillsTemplate | app/actions/generatepitch.actions.ts:57-62 | a prompt made of brace-free text and placeholders becomes that text with every placeholder replaced by its field's value, when no value holds a `{` |
| Prompt.SubstitutionOrderMatters | app/actions/generatepitch.actions.ts:57-62 | the replacements run in order; a prospect name spelled `{{company}}` ends up as the company |
| Prompt.DefaultPrompt | app/actions/generatepitch.actions.ts:65-79 | the fixed prompt text with the five values interpolated; stated by `DefaultPromptMentionsEveryField` |
| Prompt.DefaultPromptMentionsEveryField | app/actions/generatepitch.actions.ts:65-79 | the default prompt contains the recipient, offer and pain-point lines and therefore all five field values |
| PitchActions.ReadStream | app/actions/generatepitch.actions.ts:84-97 | the loop's text is the chunks concatenated in stream order, as long as all chunks together |
| PitchActions.Artifact | app/actions/generatepitch.actions.ts:99-100 | the subject line for the company followed by the model's text; stated by `BodyOfArtifact` |
| PitchActions.BodyOfArtifact | app/actions/generatepitch.actions.ts:99-100 | the pitch is the subject line for the company followed by exactly the model's text, which can be read back |
| PitchActions.NewRow | app/actions/generatepitch.actions.ts:103-125 | the row the insert writes; stated by `NewRowEntitlement` |
| PitchActions.FaultMessage | app/actions/generatepitch.actions.ts:141-152 | the catch's fixed texts: "An error occurred. Please try later." for an `Error`, "An unknown error occurred" for any other thrown value |
| PitchActions.NewRowEntitlement | app/actions/generatepitch.actions.ts:103-125 | the stored row is the owner's, holds the five fields and the pitch, carries the looked-up Pro flag, and has a billing reference only for a Pro user and only when the request's one is non-empty |
| PitchActions.CheckIfUserIsPro | app/actions/generatepitch.actions.ts:157-175 | the `users` lookup with every failure read as free; stated by `CheckIfUserIsProMeaning` |
| PitchActions.CheckIfUserIsProMeaning | app/actions/generatepitch.actions.ts:157-175 | the user is Pro exactly when the lookup succeeded and the user's first row has `is_pro` equal to true; a missing row, a NULL or false flag, or a failed lookup all mean free |
| PitchActions.HasUser | app/actions/generatepitch.actions.ts:30-36 | the `!session?.userId` test, the same in every action: a session counts only with a non-empty user id, so an empty id is refused; stated through the refusal clauses of every action |
| PitchActions.GeneratePitch | app/actions/generatepitch.actions.ts:25-154 | a throwing `auth()` gives the catch's fixed message (one text for an `Error`, another for any other thrown value); no user (or an empty id) gives "Authentication required"; invalid fields give the joined issue messages; a model or insert fault gives the fault message; otherwise success with the assembled pitch and exactly one new row with a fresh id, the id counter moved on by one; no failure changes the table or the counter |
| PitchActions.FetchPitches | app/actions/generatepitch.actions.ts:190-233 | refusal without a user; the fixed failure message when `auth()` or the query throws; otherwise success with exactly the views of the user's newest-first history |
| PitchActions.FetchPitchesListsOwnedRowsNewestFirst | app/actions/generatepitch.actions.ts:204-222 | entry k of a successful reply is the view of the row at position p(k); the positions strictly decrease and are exactly the positions of the user's rows |
| PitchActions.FetchLatestPitch | app/actions/generatepitch.actions.ts:236-287 | refusal without a user; the fixed failure message when `auth()` or the query throws; otherwise success, with a pitch exactly when the user owns a row, and that pitch the view of the user's last row |
| PitchActions.LatestIsFirstOfHistory | app/actions/generatepitch.actions.ts:204-265 | the latest pitch is the first entry of the newest-first history |
| PitchActions.StoredPitchIsLatest | app/actions/generatepitch.actions.ts:103-279 | right after a row is stored, the latest pitch of its owner is that row |
| Ledger.View | app/actions/generatepitch.actions.ts:205-214 | the columns the two history reads select: id, the five fields and the pitch, and no entitlement column (`custom_prompt` and `created_at` are not modelled); `UpdateKeepsHistory` relies on that |
| Ledger.NullIfEmpty | app/actions/user.actions.ts:114 | an absent or empty reference becomes NULL; any other reference is kept as it is |
| Ledger.Entitled | app/actions/user.actions.ts:112-116 | the update keeps the row count and every non-entitlement column, gives every owner row the new flag and reference, and leaves other owners' rows untouched |
| Ledger.Count | app/actions/user.actions.ts:74-78 | `COUNT(*)` of the owner's rows, never more than the table holds; its meaning is stated by `CountIsOwnedRows` |
| Ledger.CountIsOwnedRows | app/actions/user.actions.ts:74-78 | `COUNT(*)` equals the number of positions holding one of the owner's rows |
| Ledger.Latest | app/actions/user.actions.ts:24-30 | the owner's most recent row, if any; stated by `LatestExistsIffCounted` and `LatestIsLastOwned` |
| Ledger.LatestExistsIffCounted | app/actions/user.actions.ts:24-38 | a latest row exists exactly when the owner has at least one row |
| Ledger.LatestIsLastOwned | app/actions/user.actions.ts:24-30 | the latest row is one of the owner's rows and no later row is theirs |
| Ledger.NewestFirst | app/actions/generatepitch.actions.ts:204-218 | the owner's rows, most recent first; stated by `NewestFirstShape` and `NewestFirstPositions` |
| Ledger.NewestFirstShape | app/actions/generatepitch.actions.ts:204-218 | the history is as long as the owner's row count, holds only the owner's rows, and starts with the latest |
| Ledger.NewestFirstAtPositions | app/actions/generatepitch.actions.ts:204-218 | entry k of the history is the row at the k-th owned position, counted from the end |
| Ledger.OwnedPositionsDescend | app/actions/generatepitch.actions.ts:204-218 | those positions strictly decrease and are exactly the positions holding the owner's rows |
| Ledger.NewestFirstPositions | app/actions/generatepitch.actions.ts:204-218 | the history lists every one of the owner's rows once, newest first, and nothing else |
| Ledger.EntitledKeepsCounts | app/actions/user.actions.ts:112-116 | the update changes nobody's row count |
| Ledger.EntitledLatest | app/actions/user.actions.ts:112-116 | after the update the owner's latest row is the previous one with the new entitlement; other owners' latest rows are unchanged |
| Ledger.EntitledIdempotent | app/actions/user.actions.ts:112-116 | applying the same update twice equals applying it once |
| Ledger.PitchTable.Insert | app/actions/generatepitch.actions.ts:103-125 | the row is appended with the id counter's value, larger than every stored id, and the counter moves on by one |
| Ledger.PitchTable.SetEntitlement | app/actions/user.actions.ts:112-116 | the row-by-row loop leaves exactly the table `Entitled` describes |
| UserActions.CheckProStatus | app/actions/user.actions.ts:7-55 | refusal without a user; the fixed failure message when `auth()` or the query throws, with `isPro` false and no reference; success otherwise |
| UserActions.CheckProStatusMeaning | app/actions/user.actions.ts:24-46 | no rows means free with success; otherwise Pro exactly when the user's last row is a Pro row, and the flag and reference returned are that last row's |
| UserActions.CountUserPitches | app/actions/user.actions.ts:58-92 | count 0 with the refusal without a user, or with the fixed message when `auth()` or the query throws; otherwise success with a count bounded by the table size |
| UserActions.CountUserPitchesMeaning | app/actions/user.actions.ts:74-82 | the count is the number of rows with the user's id |
| UserActions.UpdateProStatus | app/actions/user.actions.ts:95-128 | refusal without a user, or the fixed failure message when `auth()` or the update throws, with the table unchanged; on success every row of the user carries the flag and the reference, an empty reference stored as NULL |
| UserActions.UpdateThenCheck | app/actions/user.actions.ts:24-116 | after an update, a user with rows reads back exactly the flag and normalised reference written; a user without rows still reads free |
| UserActions.UpdateLeavesOthers | app/actions/user.actions.ts:112-116 | another user's Pro status and latest pitch are unaffected by the update |
| UserActions.UpdateKeepsHistory | app/actions/user.actions.ts:112-116 | the update changes no count and no latest pitch view |
| UserActions.InsertThenRead | app/actions/generatepitch.actions.ts:103-125 | storing a pitch raises the owner's count by one and makes its entitlement the reported Pro status |
| UserActions.StripeOnlyWhenProKept | app/actions/generatepitch.actions.ts:122-123 | inserted rows, updates granting Pro and updates clearing the reference keep "no reference without Pro" |
| UserActions.RevokeWithReferenceKeepsReference | app/actions/user.actions.ts:114 | revoking Pro while passing a reference produces a non-Pro row carrying one |
| HomePage.WithEntry | pages/homepage.tsx:84-92 | a change sets the named input and leaves every other input as it was |
| HomePage.FromGenerate | pages/homepage.tsx:135-141 | what the page receives from `generatePitch` keeps its three fields and has no `pitchCount` or `isPro` |
| HomePage.FromLatest | pages/homepage.tsx:75-78 | what the page receives from `fetchLatestPitch` keeps its three fields and has no `pitchCount` or `isPro` |
| HomePage.Delivered | pages/homepage.tsx:131 | `result.success && result.pitch`: a resolved, successful reply with a non-empty pitch; what follows is stated by `Page.Submit` |
| HomePage.NoCustomPromptMeansDefault | pages/homepage.tsx:125-128 | a request without a custom prompt gets the default prompt whatever the server's Pro lookup says |
| HomePage.Page.constructor | pages/homepage.tsx:56-63 | the initial state: empty form, not loading, no pitch, free, count 0, custom prompt hidden |
| HomePage.Page.Blocked | pages/homepage.tsx:98 | a Pro user is never blocked; a free user is blocked exactly once five pitches are counted |
| HomePage.Page.SubmitDisabled | pages/homepage.tsx:349-352 | the button is disabled while loading, and otherwise exactly when blocked |
| HomePage.Page.ShowLimitWarning | pages/homepage.tsx:332 | the warning shows exactly when blocked, and then the button is disabled |
| HomePage.Page.Request | pages/homepage.tsx:119-129 | the custom prompt is forwarded exactly when the user is Pro and has opened it; the company input is sent as `company`; no billing reference is sent |
| HomePage.Page.CopyText | pages/homepage.tsx:182 | the current pitch if non-empty, else the latest pitch's text, and empty exactly when both are empty |
| HomePage.Page.Mount | pages/homepage.tsx:66-82 | a successful load shows the latest pitch if any and sets the flag and count, with absent fields read as false and 0; anything else changes nothing |
| HomePage.Page.Change | pages/homepage.tsx:84-92 | one input takes the new value; nothing else changes |
| HomePage.Page.ToggleCustomPrompt | pages/homepage.tsx:297-306 | the custom-prompt section opens or closes; nothing else changes |
| HomePage.Page.Submit | pages/homepage.tsx:94-179 | when blocked nothing is sent and nothing changes; otherwise the page's request is sent and loading ends. A delivered pitch is shown, resets the form, updates the count and flag only if the reply has them, and refreshes the latest pitch; any failure or exception keeps the form as typed and leaves the pitch area empty |
| HomePage.ServerRepliesLeaveGateOpen | pages/homepage.tsx:66-141 | over a mount and any sequence of typing and submissions answered as the server answers them, every submission is sent, none carries a custom prompt or a billing reference, and the page ends free with count 0, unblocked and with the custom prompt hidden |

## Left out

- Prompt.Substitute: the field values are inserted literally. JavaScript's `replace` reads `$$`, `$&`, `` $` `` and `$'` in a replacement string as patterns (`$1` stays literal, since the pattern has no capture group). The lemmas about `Substitute` hold for all values. What needs `$`-free values is only the agreement between `Substitute` and JavaScript's `replace`, and so also `GeneratePitch`'s statement of the prompt a custom-prompt request is sent with.
- Text.IsWhitespace: `trim()` is modelled with the common ASCII and Unicode line and space characters. The other Unicode space separators (U+1680, U+2000–U+200A, U+202F, U+205F, U+3000) are not in the set.
- Schema.TooLongMessage: the schema gives no text for the `max` checks. The validation library's default wording is used, and JavaScript's UTF-16 length is read as the length in characters.
- Clerk's `auth()`, the Gemini client and the database driver are not modelled. They become inputs: a `Session` (a user id, no user, or a thrown error), a function from prompt to stream outcome, and fault flags.
- The `window` event dispatched per chunk is not modelled; it does nothing on the server.
- `created_at` is not modelled. "Newest first" is last-appended first, which assumes insertion times increase.
- The `custom_prompt` column that the history reads select is not modelled. The insert never writes it.
- The `LIMIT 1` lookup in `users` takes the first row with the id. With `id` as the key this is the only row.
- Concurrency between requests is not modelled. Each action runs to completion on the table.
- The page's `await` points are not modelled: `Submit` runs the request to completion in one step, and the inputs are disabled while it is in flight.
- The page's `copied` flag, toasts, clipboard, timers, routing and rendering are not modelled.
- The Pro-status lookup is two unrelated data sources: `users.is_pro` for generation, and the latest `pitches` row for `checkProStatus`. Both are modelled as written, without reconciling them.
- The Stripe webhook (app/api/payments/route.ts) and the payment handler it calls are not part of this model.
- The landing, dashboard, history, navigation bar, footer and layout pages are not modelled; they only render.
