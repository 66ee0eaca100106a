# Ultra Stream client core in Dafny

A model of the logic of the Ultra Stream web client (React on top of a
Firebase document store and Firebase authentication), with proofs about it.
The modules are:

- **Store** (`store.dfy`): the `users` and `chats` collections and each chat's `messages`. It also holds the per-field update operators `increment`, `arrayUnion` and `arrayRemove`, and a server clock that stands in for `serverTimestamp()`.
- **Relationships** (`relationships.dfy`): the follow graph kept by `useRelationships`. A follow or unfollow is two sequential document updates, each of which may fail. The live subscription maps the viewed user's document to the hook's counters and `following` flag.
- **Auth** (`auth.dfy`): `useAuth`. It creates the profile on a user's first sign-in and merges `lastLogin` on later ones.
- **Search** (`search.dfy`): `useSearch`. A lower-cased range filter `[t, t + U+F8FF]` over usernames, 20 results per page, with a cursor.
- **Messages** (`messages.dfy`): the messages screen. It covers the chat-list query and its mapping, message ordering, get-or-create of a two-user chat, and sending (an append, then a summary update).
- **PasswordPolicy** (`password_policy.dfy`): the five-rule password policy, which the four credential forms each repeat. It also defines the authentication calls and routes the forms produce.
- **The forms**: **SignUp**, **Settings**, **PasswordUpdate** and **Login**, one file each.
- **The small screens**: **EmailVerification**, **Welcome**, **VideoPlayer** and **Shorts**, one file each.
- **Common** (`common.dfy`): helpers for JavaScript string semantics (`trim`, `toLowerCase`, UTF-16 `length`, `||` defaults, number formatting) and for code-point string order.
- **Sorting** (`sorting.dfy`): a descending sort by key and a reversal.

How the model treats the environment:

- Every store or authentication call that can fail takes its outcome as a parameter, such as `firstOk`, `appendOk`, or `failAt` with `errMessage`.
- The signed-in user is an `Option` parameter.
- Chat ids are handed out by a counter. `serverTimestamp()` reads a clock that each write advances.
- Wherever `MessagesScreen.tsx`, `useAuth.tsx` and `firebase.ts` contain unresolved merge markers, the model follows the `36fab14 (updates)` side.

## Model

| member | source | states |
|---|---|---|
| Store.Increment | src/hooks/useRelationships.tsx:47 | `increment(d)` on a possibly absent counter yields the old value (absent read as 0) plus `d` |
| Store.ArrayUnion | src/hooks/useRelationships.tsx:48 | `arrayUnion` has set semantics: membership is old ∪ {x}; the old list is kept as a prefix; length grows by one exactly when x was absent; duplicate-freedom is preserved |
| Store.ArrayRemove | src/hooks/useRelationships.tsx:73 | `arrayRemove` leaves exactly the old members other than x, never lengthens the list, and is the identity when x is absent |
| Store.ArrayUnionIdempotent | src/hooks/useRelationships.tsx:48 | adding the same member twice equals adding it once |
| Store.RemoveUndoesUnion | src/hooks/useRelationships.tsx:71-80 | removing a member just added to a list that lacked it gives the list back |
| Store.RemovePreservesNoDuplicates | src/hooks/useRelationships.tsx:73 | removal keeps a duplicate-free list duplicate-free |
| Store.RemoveMemberLength | src/hooks/useRelationships.tsx:73 | on a duplicate-free list, removing a member shortens it by exactly one |
| Store.ChronologicalAppend | src/pages/MessagesScreen.tsx:204-210 | appending a message stamped with the current server time and then advancing the clock keeps a log strictly increasing in `createdAt` |
| Store.DocumentStore.AddChat | src/pages/MessagesScreen.tsx:171-177 | `addDoc` on the chats: the new chat gets an id no chat had, and the clock advances; logs stay chronological, and summaries stay backed when the new chat's summary is empty |
| Store.DocumentStore.AddMessage | src/pages/MessagesScreen.tsx:204-209 | `addDoc` on a chat's messages: the message stamped with the server time is appended to that log alone, and the clock advances; logs stay chronological and summaries stay backed |
| Store.DocumentStore.UpdateChat | src/pages/MessagesScreen.tsx:215-219 | `updateDoc` on an existing chat replaces that document alone, and the clock advances; summaries stay backed when the new summary is the text of a message in that chat's log |
| Relationships.Follow | src/hooks/useRelationships.tsx:38-61 | `followUser`: the actor's document is written first and the target's second; a missing document or a failed write stops the chain. The first write puts the target in `followingList` and adds 1 to `following`. The second puts the actor in `followedBy` and adds 1 to `followers`. A failed second write leaves the target untouched. The call completes iff both documents exist and both writes succeed. No other document changes |
| Relationships.Unfollow | src/hooks/useRelationships.tsx:63-86 | `unfollowUser`, the mirror image: removal from both lists, −1 on both counters, with the same failure shape |
| Relationships.FollowPreservesConsistency | src/hooks/useRelationships.tsx:46-55 | counters equal list sizes and edges agree in both directions after a completed follow, but only if the target was not yet followed; the code does not check this |
| Relationships.UnfollowPreservesConsistency | src/hooks/useRelationships.tsx:71-80 | the same for a completed unfollow of a followed target |
| Relationships.RepeatedFollowOvercounts | src/hooks/useRelationships.tsx:46-55 | with no membership guard, a second follow leaves both counters one above their list sizes |
| Relationships.RepeatedFollowSameMembership | src/hooks/useRelationships.tsx:46-55 | a repeated follow leaves both lists as after the first, while still adding 1 to both counters |
| Relationships.UnfollowFromZeroGoesNegative | src/hooks/useRelationships.tsx:71-80 | there is no clamp at zero: unfollowing with zero counters yields −1 on both |
| Relationships.PartialFollowBreaksEdgeAgreement | src/hooks/useRelationships.tsx:46-60 | the two writes are not atomic: if the second fails, the edge exists only in the actor's list |
| Relationships.ActorRoundTrip | src/hooks/useRelationships.tsx:46-49 | the actor's document after follow then unfollow has the same list and counter value, and is identical if its counter was present |
| Relationships.TargetRoundTrip | src/hooks/useRelationships.tsx:52-55 | the same for the target's document |
| Relationships.CompletedWritesBetweenTwo | src/hooks/useRelationships.tsx:46-55 | a completed follow or unfollow between two users replaces exactly those two documents |
| Relationships.FollowThenUnfollowRestores | src/hooks/useRelationships.tsx:38-86 | from a pair with no edge, follow then unfollow restores both lists and both counter values, and the whole collection when the counters were present (self-follow included) |
| Relationships.SelfFollowThenUnfollowRestores | src/hooks/useRelationships.tsx:38-86 | the same round trip when actor and target coincide, which nothing forbids |
| Relationships.SubscriptionFor | src/hooks/useRelationships.tsx:19-36 | a subscription is opened iff there is a non-empty `userId` and a signed-in user, and it is on that id |
| Relationships.RelationshipsHook.OnSnapshot | src/hooks/useRelationships.tsx:25-33 | counters are `field \|\| 0`; `following` holds iff the current uid is in `followedBy`; an absent document only clears `loading` |
| Relationships.RelationshipsHook.FollowUser | src/hooks/useRelationships.tsx:38-61 | without a signed-in user nothing changes; otherwise the store becomes `Follow(...)`, and `following` becomes true only if both writes complete |
| Relationships.RelationshipsHook.UnfollowUser | src/hooks/useRelationships.tsx:63-86 | the same for unfollow, with `following` becoming false |
| Relationships.RelationshipsHook.Unmount | src/hooks/useRelationships.tsx:35 | the effect's cleanup closes the subscription |
| Relationships.RelationshipsHook.ChangeUserId | src/hooks/useRelationships.tsx:35-36 | a new `userId` closes the old subscription and opens `SubscriptionFor` the new one |
| Auth.NewProfile | src/hooks/useAuth.tsx:51-76 | the first-sign-in profile field by field: email `\|\| ''`, zero counters, empty lists, default preferences, `createdAt == updatedAt` from one server time, no `username`, no `lastLogin` |
| Auth.SignInWrite | src/hooks/useAuth.tsx:46-82 | an absent profile is created; an existing one changes only `lastLogin`; no other document changes |
| Auth.NewProfileCountersMatch | src/hooks/useAuth.tsx:59-60 | a new profile satisfies the counter invariant |
| Auth.SignInPreservesConsistency | src/hooks/useAuth.tsx:46-82 | a sign-in keeps the follow graph consistent when no existing list names the new user |
| Auth.DanglingEdgeBreaksConsistencyOnSignIn | src/hooks/useAuth.tsx:49-76 | an edge left by a half-failed follow to a profile-less user breaks edge agreement once that user signs in |
| Auth.AuthHook.OnAuthStateChanged | src/hooks/useAuth.tsx:43-88 | signed out: no write, then `user := null` and `loading := false`. Signed in: read, then create or merge; a failure rejects before `setUser` |
| Auth.AuthHook.Unmount | src/hooks/useAuth.tsx:90 | the effect's cleanup stops listening |
| Search.Matching | src/hooks/useSearch.tsx:37-43 | the range filter keeps exactly the index entries in `[t, t + U+F8FF]` |
| Search.QueryPage | src/hooks/useSearch.tsx:37-56 | at most 20 results, all matching, all strictly after the cursor when there is one; on a sorted index every match after the cursor is on the page unless the page is full and wholly below it, so the page is the first 20 such matches |
| Search.After | src/hooks/useSearch.tsx:51 | `startAfter(cursor)` keeps exactly the entries strictly after the cursor |
| Search.Take | src/hooks/useSearch.tsx:42 | `limit(20)` keeps the first min(n, length) entries |
| Search.TakeIsFirst | src/hooks/useSearch.tsx:42 | on a sorted sequence, an entry left out by `limit` lies after every entry kept, and the page is full |
| Search.PageSorted | src/hooks/useSearch.tsx:41 | a page of a sorted index is sorted by username |
| Search.InRangeIffPrefix | src/hooks/useSearch.tsx:39-40 | a username is in range iff it starts with the term and the next character is below U+F8FF (or is exactly U+F8FF with nothing after it) |
| Search.RangeIsPrefix | src/hooks/useSearch.tsx:39-40 | the general form, for any upper character `c` |
| Search.ResumeAfterFullPage | src/hooks/useSearch.tsx:45-62 | resuming after the last document of a full first page gives the next 20 matches in order |
| Search.TwoPagesCoverPrefix | src/hooks/useSearch.tsx:45-68 | first page plus resumed page is the first 40 matches without gap or repeat; `hasMore` (page full) holds iff enough matches remain |
| Search.StaleCursorHidesMatches | src/hooks/useSearch.tsx:45-54 | a cursor left by another term and lying past every match of the new term yields an empty page |
| Search.NewProfileNeverFound | src/hooks/useAuth.tsx:51-70 | a profile created at sign-in has no `username`, so no search ever returns it |
| Search.SearchHook.SearchUsers | src/hooks/useSearch.tsx:22-75 | a blank term only empties the results. Otherwise: replace or append the page, the cursor becomes the page's last document, `hasMore` becomes "page has 20", an error sets the message, and `loading` ends false |
| Messages.ChatListQuery | src/pages/MessagesScreen.tsx:64-78 | a reordering of the `array-contains` filter: every chat containing me, each once, in non-increasing `lastMessageTime` |
| Messages.FirstOther | src/pages/MessagesScreen.tsx:85 | `find(id => id !== me)`: the first member other than me, none iff every member is me |
| Messages.ShownUnread | src/pages/MessagesScreen.tsx:97 | `unreadCount \|\| 0`: only a missing count becomes 0 |
| Messages.IncrementUnread | src/pages/MessagesScreen.tsx:218 | `unreadCount.<uid>: increment(1)` turns the field into a per-user map and bumps only that entry, after which the list's scalar badge never shows |
| Messages.CounterpartOf | src/pages/MessagesScreen.tsx:98-111 | counterpart display: `displayName \|\| 'User'`, `photoURL \|\| ''`, `online \|\| false`, with a missing profile read as all missing |
| Messages.ChatList | src/pages/MessagesScreen.tsx:80-116 | the intended list, one entry per document in order: its id and members, `lastMessage` and `lastMessageTime`, the count `unreadCount \|\| 0`, and as `user` the profile display (`CounterpartOf`) of the first member other than me, whose id is a member, is not me and has a non-empty name; no list iff some chat has no other member |
| Messages.BuildChatList | src/pages/MessagesScreen.tsx:81-113 | the push loop computes `ChatList` |
| Messages.ChatListAsWritten | src/pages/MessagesScreen.tsx:83-88 | as written, only an empty snapshot reaches `setChats` |
| Messages.ShadowedDocLosesChatList | src/pages/MessagesScreen.tsx:83-88 | every non-empty snapshot the corrected handler would list is lost by the handler as written |
| Messages.ShadowedDocExample | src/pages/MessagesScreen.tsx:83-88 | a concrete one-chat snapshot that the handler as written drops and the corrected one lists |
| Messages.ChatsWith | src/pages/MessagesScreen.tsx:76 | `where('users', 'array-contains', me)` holds exactly the stored chats containing me, in ascending id |
| Messages.ChatListShowsMyChats | src/pages/MessagesScreen.tsx:64-116 | the list shows exactly my chats, each once, newest first |
| Messages.SelfChatBlocksChatList | src/pages/MessagesScreen.tsx:85-88 | a chat `[me, me]` has no counterpart and blocks the whole list |
| Messages.DisplayOrder | src/pages/MessagesScreen.tsx:125-138 | descending `createdAt` then reversed is a permutation of the log in non-decreasing time |
| Messages.DisplayOrderOfChronological | src/pages/MessagesScreen.tsx:125-138 | a chronological log is displayed in append order |
| Messages.FindExisting | src/pages/MessagesScreen.tsx:157-160 | the first of my chats containing the target, none iff no chat contains it |
| Messages.NewChat | src/pages/MessagesScreen.tsx:171-177 | the created chat is `[me, target]` with empty summary, count 0 and both times the current server time |
| Messages.CreatedChatFoundInReverse | src/pages/MessagesScreen.tsx:146-190 | after A creates a chat with B, B's get-or-create of A finds that chat |
| Messages.MessagesScreen.OnChatListSnapshot | src/pages/MessagesScreen.tsx:61-120 | with a signed-in user the list becomes `ChatList` of the query when that yields one |
| Messages.MessagesScreen.OnMessagesSnapshot | src/pages/MessagesScreen.tsx:122-142 | with a selected chat and a user, the messages become the display order of its log |
| Messages.ListedChatsRender | src/pages/MessagesScreen.tsx:280-326 | every chat picked from the list renders its header |
| Messages.MessagesScreen.SelectChat | src/pages/MessagesScreen.tsx:281 | a click selects that list entry and changes nothing else |
| Messages.MessagesScreen.EditMessage | src/pages/MessagesScreen.tsx:381 | typing sets the draft and changes nothing else |
| Messages.MessagesScreen.StartNewChat | src/pages/MessagesScreen.tsx:146-190 | an existing chat is selected without its counterpart, so its header cannot render; otherwise one chat with a fresh id is created and selected with a placeholder counterpart, whose header renders; the store stays valid and every summary stays backed by a message |
| Messages.MessagesScreen.SendMessage | src/pages/MessagesScreen.tsx:193-226 | blank text, no chat or no user: no-op. Otherwise the untrimmed text is appended as unread, then the summary is updated with the counterpart's unread count bumped. Without a counterpart the append stays and the summary does not. The text is cleared only on full success; logs stay chronological and summaries backed |
| PasswordPolicy.CheckRequirements | src/pages/SignUpScreen.tsx:38-46 | each flag iff its rule: UTF-16 length ≥ 12, an ASCII upper, lower, digit, and a character of the special set |
| PasswordPolicy.ComplexityIsAllMet | src/pages/LoginScreen.tsx:39-48 | the login form's own conjunction agrees with "all flags set" |
| PasswordPolicy.ExtendingKeepsFlags | src/pages/SignUpScreen.tsx:38-46 | typing more characters never clears a flag |
| PasswordPolicy.Utf16LengthAppend | src/pages/SignUpScreen.tsx:40 | `length` is additive over concatenation |
| PasswordPolicy.MinimalCompliantPassword | src/pages/SignUpScreen.tsx:38-50 | a 12-character compliant password exists |
| PasswordPolicy.AstralCharactersCountTwice | src/pages/SignUpScreen.tsx:40 | eight code points, four of them outside the BMP, pass the length rule |
| PasswordPolicy.ShortBmpPasswordFails | src/pages/SignUpScreen.tsx:40 | fewer than 12 BMP characters never pass |
| PasswordPolicy.Issued | src/pages/SignUpScreen.tsx:82-97 | a chain of awaited calls issues its calls up to and including the one that throws |
| SignUp.ValidationError | src/pages/SignUpScreen.tsx:56-74 | the first failing check in the order name, e-mail, flags, match, with its message; none iff all pass |
| SignUp.BlankPasswordRejected | src/pages/SignUpScreen.tsx:56-74 | with current flags, a whitespace-only password never passes validation |
| SignUp.EnabledButtonChecksOnlyNameAndEmail | src/pages/SignUpScreen.tsx:56-74 | with every flag set and the confirmation matching (the button's own condition), validation fails only on a blank name or e-mail, with that message |
| SignUp.SignUpForm.HandleChange | src/pages/SignUpScreen.tsx:29-36 | sets one field, clears the error, recomputes the flags only on a password edit, and keeps the flags current |
| SignUp.SignUpForm.HandleSignUp | src/pages/SignUpScreen.tsx:76-101 | a validation failure issues no call; otherwise create, display name and verification run until one throws; only a full run goes to verification with the e-mail; `loading` ends false |
| Settings.GuardError | src/pages/SettingsScreen.tsx:76-84 | flags first, then match, with their messages; none iff both pass |
| Settings.EnabledButtonPassesGuards | src/pages/SettingsScreen.tsx:259 | the enabled button passes both guards and vice versa |
| Settings.PasswordPanel.HandlePasswordChange | src/pages/SettingsScreen.tsx:55-63 | sets one field, clears both banners, recomputes the flags only for the new password |
| Settings.PasswordPanel.ToggleChangePassword | src/pages/SettingsScreen.tsx:184 | flips the panel |
| Settings.PasswordPanel.HandleChangePassword | src/pages/SettingsScreen.tsx:73-111 | no e-mail: nothing. Then the guards; then reauthentication and update. A success empties the three fields, closes the panel and sets the success message, but leaves the flags alone. A failure sets the error |
| Settings.StaleFlagsAfterSuccess | src/pages/SettingsScreen.tsx:99-105 | after a success the flags no longer describe the emptied field, and the match rule still blocks a resubmission |
| PasswordUpdate.GuardError | src/pages/PasswordUpdateScreen.tsx:58-66 | flags first, then match; none iff both pass |
| PasswordUpdate.EnabledButtonPassesGuards | src/pages/PasswordUpdateScreen.tsx:172 | the enabled button passes both guards and vice versa |
| PasswordUpdate.UpdateForm.HandlePasswordChange | src/pages/PasswordUpdateScreen.tsx:38-45 | sets one field, clears the error, recomputes the flags only for the new password |
| PasswordUpdate.UpdateForm.HandleUpdatePassword | src/pages/PasswordUpdateScreen.tsx:55-92 | no e-mail: nothing. Then the guards; then reauthenticate, update and sign out. Only a full run goes to login with the fixed message; a failure sets the error |
| PasswordUpdate.UpdateForm.Cancel | src/pages/PasswordUpdateScreen.tsx:179-182 | issues a sign-out and goes to login without waiting for it |
| PasswordUpdate.UpdatedPasswordIsCompliant | src/pages/PasswordUpdateScreen.tsx:58-78 | a new password that passes the guards with current flags complies with the login policy |
| Login.ValidationError | src/pages/LoginScreen.tsx:27-37 | e-mail then password must be non-blank, each with its message |
| Login.Destination | src/pages/LoginScreen.tsx:70-78 | a verified user goes home iff the password is compliant, otherwise to the update form carrying the password |
| Login.LoginForm.HandleChange | src/pages/LoginScreen.tsx:21-25 | sets one field and clears both banners |
| Login.LoginForm.HandleLogin | src/pages/LoginScreen.tsx:50-84 | validation, then sign-in. An unverified user gets the message and a sign-out, whose own failure overwrites the message. A verified user is routed by `Destination`. Errors set the message; `loading` ends false |
| Login.ForcedUpdateCarriesPassword | src/pages/PasswordUpdateScreen.tsx:14 | a validated password is non-empty, so the update form's `currentPassword \|\| ''` keeps it |
| Login.ForcedUpdateIffNonCompliant | src/pages/LoginScreen.tsx:70-75 | the forced update is reached exactly by passwords failing some flag |
| EmailVerification.ResendLabel | src/pages/EmailVerificationScreen.tsx:83 | while counting, "Resend in " + a decimal numeral without leading zeros whose value is the countdown + "s"; "Resend" at zero |
| EmailVerification.AfterTicks | src/pages/EmailVerificationScreen.tsx:18-26 | n ticks of the interval from a non-negative count stay between 0 and that count |
| EmailVerification.LabelShowsDisabled | src/pages/EmailVerificationScreen.tsx:78-83 | the label is "Resend" iff the button is enabled |
| EmailVerification.AfterTicksClamps | src/pages/EmailVerificationScreen.tsx:18-26 | n ticks from c ≥ 0 give max(c − n, 0): never negative |
| EmailVerification.ResendEnabledAfterSixtyTicks | src/pages/EmailVerificationScreen.tsx:15-26 | sixty ticks from the start enable resending |
| EmailVerification.VerificationScreen.Tick | src/pages/EmailVerificationScreen.tsx:19-23 | decrement only while positive; stays within [0, 60] |
| EmailVerification.VerificationScreen.HandleResendCode | src/pages/EmailVerificationScreen.tsx:41-55 | while counting: nothing. No user: the try-again alert. A send error: "Error: " + message. Success: back to 60 with the resent alert |
| EmailVerification.VerificationScreen.Poll | src/pages/EmailVerificationScreen.tsx:29-34 | goes to login once a signed-in user's reloaded record is verified |
| Welcome.Next | src/pages/WelcomeScreen.tsx:38 | the next arrow keeps a slide index in range |
| Welcome.Prev | src/pages/WelcomeScreen.tsx:42 | the previous arrow keeps a slide index in range |
| Welcome.Advance | src/pages/WelcomeScreen.tsx:29-35 | any number of auto-advances keeps a slide index in range |
| Welcome.NextIsModular | src/pages/WelcomeScreen.tsx:37-39 | next is +1 mod 3 on slide indices |
| Welcome.PrevIsModular | src/pages/WelcomeScreen.tsx:41-43 | prev is −1 mod 3 on slide indices |
| Welcome.NextPrevInverse | src/pages/WelcomeScreen.tsx:37-43 | the arrows undo each other |
| Welcome.AdvanceIsModular | src/pages/WelcomeScreen.tsx:29-35 | n advances land on (i + n) mod 3 |
| Welcome.Carousel.HandleNext | src/pages/WelcomeScreen.tsx:37-39 | the index becomes (i + 1) mod 3 and stays in range |
| Welcome.Carousel.HandlePrev | src/pages/WelcomeScreen.tsx:41-43 | the index becomes (i − 1) mod 3 and stays in range |
| Welcome.Carousel.SelectDot | src/pages/WelcomeScreen.tsx:99-101 | the index becomes the dot's |
| VideoPlayer.NewComment | src/pages/VideoPlayerScreen.tsx:117-126 | untrimmed text, 0 likes, `displayName \|\| 'Anonymous'`, `photoURL \|\|` the default avatar, and an id that is the decimal numeral, without leading zeros, of the clock |
| VideoPlayer.Player.EditComment | src/pages/VideoPlayerScreen.tsx:270 | typing sets the comment text and changes nothing else |
| VideoPlayer.Player.HandleLike | src/pages/VideoPlayerScreen.tsx:101-107 | without a user: the login alert and no change; with one: `liked` flips |
| VideoPlayer.Player.HandleAddComment | src/pages/VideoPlayerScreen.tsx:109-130 | without a user: the alert and no change; blank text: no change; otherwise the new comment is prepended, the rest follows unchanged, and the text is cleared, which disables the button |
| VideoPlayer.WhitespaceDisables | src/pages/VideoPlayerScreen.tsx:277 | whitespace-only text disables the button |
| Shorts.Feed.HandleLike | src/pages/ShortsScreen.tsx:53-59 | the id's flag flips (absent read as false), every other entry is unchanged |
| Shorts.Feed.Click | src/pages/ShortsScreen.tsx:97-147 | a card click only logs the short; the heart toggles without reaching the card handler |
| Shorts.Feed.HandleShortClick | src/pages/ShortsScreen.tsx:61-64 | a card click records that short's id and changes no like |
| Shorts.LikeTwiceRestoresFlags | src/pages/ShortsScreen.tsx:55-58 | two likes restore every shown flag, though an absent id stays present as false |
| Common.BlankIffAllWhitespace | src/pages/SignUpScreen.tsx:57 | `!s.trim()` holds iff every character is JavaScript whitespace |
| Common.Trim | src/pages/SignUpScreen.tsx:57 | `trim()` never lengthens a string, and a non-empty result starts and ends with a non-whitespace character |
| Common.TrimIsStripped | src/pages/SignUpScreen.tsx:57 | `trim()` returns the slice of the string left after removing whitespace, and only whitespace, from its two ends |
| Common.StringOr | src/pages/VideoPlayerScreen.tsx:122-123 | `s \|\| fallback`: the string when present and non-empty, the fallback otherwise |
| Common.ToLowerAscii | src/hooks/useSearch.tsx:39-40 | `toLowerCase()` keeps the length and lowers each ASCII capital in place |
| Common.NatToString | src/pages/VideoPlayerScreen.tsx:117 | `toString()` of a non-negative integer is a decimal numeral, with no leading zero unless it is "0" |
| Common.NatToStringValue | src/pages/VideoPlayerScreen.tsx:117 | the numeral's value is the number |
| Common.NatToStringInjective | src/pages/VideoPlayerScreen.tsx:117 | distinct numbers give distinct numerals, so ids from distinct clock readings differ |
| Common.Utf16Length | src/pages/SignUpScreen.tsx:40 | `length` lies between the code-point count and twice it, and equals it for BMP-only strings |
| Sorting.SortDesc | src/pages/MessagesScreen.tsx:127 | `orderBy('createdAt', 'desc')` yields a permutation in non-increasing key order |
| Sorting.Reverse | src/pages/MessagesScreen.tsx:138 | `reverse()` puts entry i at position length − 1 − i |
| Sorting.SortDescOfIncreasing | src/pages/MessagesScreen.tsx:127-138 | sorting a strictly increasing sequence in descending order is its reversal |

## Left out

- `src/firebase.ts` (SDK setup and offline persistence) is not part of this model, and neither are `src/App.tsx` (routing and the route guard), `src/pages/VideoCallScreen.tsx` (media calls) or `src/components/UserSearchModal.tsx` (a debounced modal).
- The static mock screens (home, trending, library, history, profile, about) and the presentational components are not modelled. The button's `loading || disabled` rule appears only inside the `SubmitEnabled` predicates.
- Timers, re-render timing and async interleaving are not modelled. Each handler runs to completion as one step. The countdown and carousel intervals are the `Tick` and `HandleNext` steps.
- Real timestamps, `Date.now()` and `toISOString()` are parameters or the store's clock. Locale formatting is left out.
- Network failures of the chat list's profile reads, and of the query behind the chat list, are not modelled: the list is built from the store directly.
- `Messages.ChatListQuery` orders chats with equal `lastMessageTime` by ascending id. The store's order of such ties is not modelled.
- Common.Trim: its own contract states only the bound and the non-whitespace ends. That the result is `s` stripped of whitespace at both ends is the separate lemma `Common.TrimIsStripped`, so that the form handlers, which only test `!x.trim()`, do not carry it.
- `Common.ToLowerAscii`: `toLowerCase` is modelled on ASCII letters only, so the search term of a non-ASCII username is not modelled.
- String comparison in the store is modelled as code-point order, which coincides with the store's UTF-8 byte order on every Unicode scalar value. Lone surrogates, which a JavaScript string can hold, cannot be represented in a `string` here.
- Counters are unbounded integers. The store's 64-bit limit is not modelled.
- The profile's `socialLinks` field is not modelled, since no reader uses it.
- The `HEAD` side of the merge conflicts is not modelled.
- `Messages.MessagesScreen.OnChatListSnapshot`: when no list is produced, the model keeps the old list. In the source the async handler rejects and `setChats` is never called, which has the same effect on the screen.
- The video player's mock loading (`setTimeout` with fixed data) becomes the constructor's `loaded` comments. Its related videos are not modelled.
- The render crash itself, and the unmount that follows it, are not modelled: the model only states, through `Messages.HeaderRenders`, which selections can render the header.
- `Shorts.Feed.HandleShortClick` logs to the console; the model records the id in `viewed`.
- There is no mark-read operation in the client, so none is modelled. The same goes for a deterministic chat key, a term-bound search cursor, idempotent follows and counter clamping.

## Findings

| source | as written | input that shows it | evidently intended | confidence | as-written member | corrected member |
|---|---|---|---|---|---|---|
| src/pages/MessagesScreen.tsx:83-88 | the loop variable `doc` shadows the imported `doc()`, so `doc(db, 'users', otherUserId)` calls a snapshot and throws; the async handler rejects before `setChats` | a snapshot with one chat `["a", "b"]` seen by `a` | each chat is listed with its counterpart's profile | not executed | Messages.ChatListAsWritten | Messages.ChatList |

Other behaviours the proofs make visible are kept as the code has them:

- A chat with oneself blocks the chat list (`Messages.SelfChatBlocksChatList`).
- After the first send, `unreadCount` becomes a per-user map that the list reads as a number, so the badge never shows (`Messages.IncrementUnread`).
- A chat found by get-or-create is selected without `user`, so the header's `selectedChat.user.avatar` throws on the next render, and with no error boundary the screen is torn down (`Messages.MessagesScreen.StartNewChat`, `Messages.HeaderRenders`). The send on such a chat that `Messages.MessagesScreen.SendMessage` models (the append stays, the summary update throws) is therefore not reachable from the screen.
- Repeated follows overcount, and unfollows go negative (`Relationships.RepeatedFollowOvercounts`, `Relationships.UnfollowFromZeroGoesNegative`).
- Usernames whose next character lies above U+F8FF are missed by the search (`Search.InRangeIffPrefix`).
- Characters outside the BMP count twice toward the length rule (`PasswordPolicy.AstralCharactersCountTwice`).
