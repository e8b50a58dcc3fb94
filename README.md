# viewvine-connect: the client components, modelled in Dafny

viewvine-connect is a photo-sharing web client written in React with a hosted
backend. Its components hold small pieces of local state and update it
from event handlers:

- the post card (likes, bookmark, comment box, image carousel);
- the post composer (caption, location, the selected files and their
  previews, the submit flow);
- the profile page's follow button;
- the explore page's follow buttons;
- the reel viewer's switches;
- the application shell (bottom navigation, notification badge, the
  verified flag);
- the admin context, the admin panel and the admin login form.

This project models each of these components in Dafny and proves what they
promise.

Each stateful component is modelled in three parts:

- a datatype snapshot of its state;
- pure transition functions on that snapshot, which serve as the
  specification;
- a `class` with the component's own fields. Each handler is a method
  whose `ensures` ties the new state to the transition function applied to
  the old state.

The properties are lemmas about the transition functions:

- flips that undo themselves;
- counters that stay consistent with their flags;
- a carousel index that stays in range and visits every image;
- image and preview lists that stay paired through additions and
  removals;
- the decision trees of the admin flows.

Calls into the backend are modelled as abstract outcomes passed in as
parameters. These calls are sign-in, sign-out, document reads, the
collection fetch and file upload. A read or call either completes with a
value or throws.

JavaScript behaviour the components rely on is written out in `Text`:

- `trim`, with the whitespace set of ECMA-262 sections 12.2 and 12.3;
- ASCII `toUpperCase`;
- `slice(0, 2)`;
- `split("@")[0]`;
- case-sensitive `includes`.

`Backend` models the truthiness of `||` on optional strings and of stored
field values.

Two facts about access control shape the admin part of the model:

- The admin gate of the login form at `src/pages/admin/AdminLogin.tsx:46`
  is a case-sensitive `includes("admin")` on the account's email, modelled
  by `AdminLogin.GrantsAccess`.
- `src/App.tsx` has no guard component. The only gating is each
  component's own check: `Layout.Render` renders nothing without a user,
  and `AdminPanel.OnAuthState` redirects.

## Model

| member | source | states |
|---|---|---|
| Text.BlankIffAllSpace | src/components/PostCard.tsx:58 | `comment.trim()` is empty exactly when every character is JavaScript whitespace |
| Text.ToUpper | src/components/PostCard.tsx:84 | upper-casing keeps the length, maps each character by its ASCII upper case, and leaves no lower-case ASCII letter |
| Text.Initials | src/components/PostCard.tsx:84 | `slice(0, 2).toUpperCase()` has length min(2, length) and holds the upper-cased leading characters |
| Text.BeforeFirst | src/pages/CreatePost.tsx:73 | `split("@")[0]` is a prefix containing no "@", and is followed by "@" whenever it is shorter than the input |
| Text.ContainsIffOccurs | src/pages/admin/AdminLogin.tsx:46 | the recursive substring test holds iff the pattern occurs at some index |
| Text.ContainsKeepsChars | src/pages/admin/AdminLogin.tsx:46 | a string containing the pattern contains each of the pattern's characters |
| Backend.OrElse | src/components/Layout.tsx:167 | `a \|\| b` on optional strings returns `a` when it is a non-empty string, otherwise `b`; the result is truthy iff either is |
| Account.EmailPrefix | src/pages/Profile.tsx:71 | `email?.split("@")[0]` is undefined iff there is no email; otherwise it is the "@"-free prefix of the email |
| Account.Handle | src/components/Layout.tsx:167 | the handle is the display name when it is non-empty, else the email prefix; it is absent iff both are missing |
| Account.AvatarLetter | src/pages/CreatePost.tsx:135 | the avatar shows the display name's first character, or the fallback text when there is no display name |
| PostCard.NextIndex | src/components/PostCard.tsx:64-68 | from an index in range, the next index stays in range, and it moves whenever there are two or more images |
| PostCard.PrevIndex | src/components/PostCard.tsx:70-74 | from an index in range, the previous index stays in range, and it moves whenever there are two or more images |
| PostCard.Step | src/components/PostCard.tsx:48-74 | each handler touches only its own fields: like the flag and count, bookmark the bookmark, the comment box the comment, the arrows the index |
| PostCard.LikeFlipsAndCounts | src/components/PostCard.tsx:48-51 | a like click flips `isLiked`, moves the count by -1 when it was liked and by +1 otherwise, and changes nothing else |
| PostCard.LikeTwiceRestores | src/components/PostCard.tsx:48-51 | two like clicks restore the card exactly |
| PostCard.BookmarkFlipsOnly | src/components/PostCard.tsx:53-55 | a bookmark click flips only the bookmark, and two clicks restore the card |
| PostCard.CommentSubmitClearsIffNotBlank | src/components/PostCard.tsx:57-62 | submitting clears the comment iff it has a non-whitespace character; a blank comment leaves the card unchanged; nothing else changes |
| PostCard.PrevUndoesNext | src/components/PostCard.tsx:64-74 | with at least one image, previous undoes next and next undoes previous |
| PostCard.ForwardWithoutWrap | src/components/PostCard.tsx:64-68 | k next clicks that do not reach the end advance the index by exactly k |
| PostCard.ForwardAdds | src/components/PostCard.tsx:64-68 | a next clicks followed by b next clicks equal a + b next clicks |
| PostCard.ForwardComesBack | src/components/PostCard.tsx:64-68 | n next clicks on n images return to the image they started from |
| PostCard.ForwardCycles | src/components/PostCard.tsx:64-68 | n next clicks on n images return to the start, and every image is reached within fewer than n clicks |
| PostCard.StepKeepsIndexInRange | src/components/PostCard.tsx:46-74 | every single handler keeps a valid image index valid |
| PostCard.RunKeepsIndexInRange | src/components/PostCard.tsx:46-74 | after any event sequence on a non-empty carousel, the image index is a valid index |
| PostCard.StepKeepsBalance | src/components/PostCard.tsx:48-51 | every single handler keeps the like count minus the liked flag unchanged |
| PostCard.RunKeepsBalance | src/components/PostCard.tsx:48-51 | the like count minus the liked flag is invariant under every event sequence |
| PostCard.CountNeverNegative | src/components/PostCard.tsx:42-51 | starting from a post with a non-negative count that is at least 1 when liked, the count never goes negative |
| PostCard.EmptyCarouselEscapes | src/components/PostCard.tsx:64-74 | with no images the handlers would leave the range (next gives 1, previous gives -1), but no arrows are shown then |
| PostCard.ShowArrows | src/components/PostCard.tsx:130 | on a non-empty carousel the arrows are shown exactly when a click would move the index; never with no image |
| PostCard.ShowPostButton | src/components/PostCard.tsx:225 | the Post button is shown iff the comment has a character that is not whitespace |
| PostCard.PostButtonMatchesSubmit | src/components/PostCard.tsx:57-62 | the Post button is shown exactly when submitting would change the card, and then submitting clears the comment |
| PostCard.LikesLabel | src/components/PostCard.tsx:194-196 | the likes line appears iff the count is positive, with the word "like" exactly for one |
| PostCard.AvatarFallback | src/components/PostCard.tsx:84 | the avatar text is the first two characters of the username, upper-cased |
| PostCard.Card.constructor | src/components/PostCard.tsx:42-46 | the card starts from the post's like and bookmark flags and its count, with an empty comment and image 0 |
| PostCard.Card.HandleLike | src/components/PostCard.tsx:48-51 | the new state is the like transition of the old |
| PostCard.Card.HandleBookmark | src/components/PostCard.tsx:53-55 | the new state is the bookmark transition of the old |
| PostCard.Card.SetComment | src/components/PostCard.tsx:221 | typing replaces the comment and nothing else |
| PostCard.Card.HandleCommentSubmit | src/components/PostCard.tsx:57-62 | the new state is the submit transition of the old |
| PostCard.Card.NextImage | src/components/PostCard.tsx:64-68 | the new state is the next-image transition of the old |
| PostCard.Card.PrevImage | src/components/PostCard.tsx:70-74 | the new state is the previous-image transition of the old |
| CreatePost.Previews | src/pages/CreatePost.tsx:37 | one preview per file, in the same order |
| CreatePost.AddFiles | src/pages/CreatePost.tsx:31-39 | no file list changes nothing; otherwise both lists grow by the number of files and paired lists stay paired |
| CreatePost.SpliceStart | src/pages/CreatePost.tsx:45 | splice's start: used as is when within the list, counted from the end when negative (floor 0), clamped to the length when too large |
| CreatePost.SpliceOne | src/pages/CreatePost.tsx:45-46 | `splice(index, 1)` removes the element at the resolved start, if there is one, and keeps the others in order |
| CreatePost.RemoveAt | src/pages/CreatePost.tsx:42-48 | on paired lists, removal keeps them paired, drops one entry when the index resolves inside, and is a no-op when it resolves past the end |
| CreatePost.AddFilesKeepsPairs | src/pages/CreatePost.tsx:31-39 | adding files keeps images and previews the same length, keeps the old entries, and appends each file with its own preview |
| CreatePost.Zip | src/pages/CreatePost.tsx:42-48 | on paired lists, the zip pairs each image with its preview |
| CreatePost.RemoveKeepsPairs | src/pages/CreatePost.tsx:42-48 | removing by index keeps the lists paired and removes the same pair from both |
| CreatePost.UploadNotCapped | src/pages/CreatePost.tsx:185 | the add-photos control hides only at ten images; one upload of two files from nine images reaches eleven |
| CreatePost.OffersMorePhotos | src/pages/CreatePost.tsx:145-185 | "Add more photos" is offered for one to nine images; with none the upload area shows instead, and from ten on it is hidden |
| CreatePost.NothingToShare | src/pages/CreatePost.tsx:118 | there is nothing to share iff there is no image and every caption character is whitespace |
| CreatePost.ShareDisabled | src/pages/CreatePost.tsx:118 | the Share button is disabled while loading, and with an image or a non-whitespace caption it is disabled only while loading |
| CreatePost.SubmitProceeds | src/pages/CreatePost.tsx:55 | submit goes past its first line iff a user is signed in and there is an image or a non-whitespace caption character |
| CreatePost.ShareButtonMatchesGuard | src/pages/CreatePost.tsx:118 | with a user and the button enabled, submit goes ahead; the button is disabled iff there is nothing to share or a submit is in progress |
| CreatePost.AuthorName | src/pages/CreatePost.tsx:73 | the stored author name is never empty: display name, else email prefix, else "Anonymous" |
| CreatePost.EmptyPrefixIsAnonymous | src/pages/CreatePost.tsx:73 | an email starting with "@" and no display name give "Anonymous" |
| CreatePost.NewPost | src/pages/CreatePost.tsx:71-83 | the stored post has zero likes and comments, is not liked or bookmarked, and keeps the caption, location, URLs and author fields |
| CreatePost.UploadAll | src/pages/CreatePost.tsx:61-68 | the upload loop yields URLs iff every upload succeeds, one URL per image in order; the uploads attempted are all of them on success, otherwise exactly those up to and including the first failure |
| CreatePost.Composer.constructor | src/pages/CreatePost.tsx:25-29 | the composer starts empty and not loading |
| CreatePost.Composer.SetCaption | src/pages/CreatePost.tsx:208 | typing replaces the caption only |
| CreatePost.Composer.SetLocation | src/pages/CreatePost.tsx:235 | typing replaces the location only |
| CreatePost.Composer.HandleImageUpload | src/pages/CreatePost.tsx:31-39 | the lists become the add-files transition of the old lists; they stay paired |
| CreatePost.Composer.RemoveImage | src/pages/CreatePost.tsx:42-52 | the lists become the remove transition of the old lists; they stay paired |
| CreatePost.Composer.HandleSubmit | src/pages/CreatePost.tsx:54-93 | guard fails: nothing happens. Otherwise `loading` is true while the uploads and the write are awaited and false at the end. A post is written, and the page goes to "/", iff every upload and the store succeed. Inputs are not cleared |
| Profile.Follow | src/pages/Profile.tsx:27-30 | a click flips the flag, moves the count by +1 when it starts following and -1 when it stops, and keeps the counter consistent with the flag |
| Profile.FollowFlipsAndCounts | src/pages/Profile.tsx:27-30 | a follow click flips the flag and moves the follower count by one in the matching direction; two clicks restore |
| Profile.FollowTimesFromInitial | src/pages/Profile.tsx:24-30 | from the initial state, k clicks give 12500 followers (not following) for even k, and 12501 (following) for odd k |
| Profile.DisplayName | src/pages/Profile.tsx:71 | the name shown is the display name when it is non-empty, else exactly the email prefix (free of "@"); it is absent iff both are missing |
| Profile.AvatarFallback | src/pages/Profile.tsx:61 | one character: the display name's first, or "U" |
| Profile.ProfilePage.constructor | src/pages/Profile.tsx:24-25 | the page starts not following, at 12500 followers |
| Profile.ProfilePage.HandleFollow | src/pages/Profile.tsx:27-30 | the new state is the follow transition of the old; flag and count stay consistent |
| Explore.Toggle | src/pages/Explore.tsx:49-59 | following flips exactly the clicked username's membership |
| Explore.ToggleTwiceRestores | src/pages/Explore.tsx:49-59 | two clicks on one user restore the set, and clicks on two users commute |
| Explore.ToggleAllParity | src/pages/Explore.tsx:49-59 | after any click sequence, a user is followed iff an odd number of clicks on them changed their initial membership |
| Explore.FollowLabel | src/pages/Explore.tsx:187-194 | the button reads "Following" iff the user is followed, otherwise "Follow" |
| Explore.ClickSwapsOneLabel | src/pages/Explore.tsx:180-194 | a click changes the clicked user's label and no other |
| Explore.AvatarFallback | src/pages/Explore.tsx:151 | the avatar text is the first two characters of the username, upper-cased |
| Explore.ExplorePage.constructor | src/pages/Explore.tsx:36-37 | the page starts with an empty search and no one followed |
| Explore.ExplorePage.HandleFollow | src/pages/Explore.tsx:49-59 | the followed set becomes the toggle of the old set |
| Reels.Press | src/pages/Reels.tsx:21-31 | a switch changes iff its own button was pressed |
| Reels.PressFlipsOwnSwitch | src/pages/Reels.tsx:21-31 | each button flips exactly its own switch, and pressing twice is the identity |
| Reels.PressAllParity | src/pages/Reels.tsx:17-31 | after any press sequence, each switch is its initial value flipped once per press of its own button |
| Reels.ReelViewer.constructor | src/pages/Reels.tsx:17-19 | the reel starts playing, not liked, not bookmarked |
| Reels.ReelViewer.TogglePlay | src/pages/Reels.tsx:21-23 | the new state is the play-press transition of the old |
| Reels.ReelViewer.ToggleLike | src/pages/Reels.tsx:25-27 | the new state is the like-press transition of the old |
| Reels.ReelViewer.ToggleBookmark | src/pages/Reels.tsx:29-31 | the new state is the bookmark-press transition of the old |
| Layout.BottomNavItems | src/components/Layout.tsx:57-63 | five entries with distinct paths: Home, Explore, Create, Reels, Profile |
| Layout.IsActive | src/components/Layout.tsx:65 | only an exact match is active: an active path has the pathname's length, and a strict prefix of the pathname is never active |
| Layout.AtMostOneActive | src/components/Layout.tsx:65 | exact path matching highlights at most one bottom entry, and none on a sub-path |
| Layout.BadgeLabel | src/components/Layout.tsx:137-140 | no badge for zero or less, "9+" above nine, otherwise the single digit of the count |
| Layout.Render | src/components/Layout.tsx:75-77 | nothing renders iff there is no user; the header shows the handle, the avatar letter or "SL", the badge, the verified flag and the active entry |
| Layout.Verified | src/components/Layout.tsx:40-54 | without a user or without a found document the flag is kept; a found document sets it to the truthiness of its `isVerified` field, so a missing or falsy field clears it |
| Layout.VerifiedOnlyFromDocument | src/components/Layout.tsx:40-54 | only a found document changes the verified flag, to its field's truthiness; a missing document or a failed read leave it unchanged |
| Layout.LayoutShell.constructor | src/components/Layout.tsx:35-37 | the shell starts with three notifications, an empty search and not verified |
| Layout.LayoutShell.CheckVerification | src/components/Layout.tsx:40-54 | the flag becomes the verification transition of the old flag; nothing else changes |
| AdminContext.Check | src/context/AdminContext.tsx:27-45 | a completed check never leaves loading set, and isAdmin holds iff there is a user and their admins document exists |
| AdminContext.CheckResolves | src/context/AdminContext.tsx:27-45 | every completed check clears loading; isAdmin holds iff there is a user and their admins document exists |
| AdminContext.LoadingSettlesForGood | src/context/AdminContext.tsx:27-48 | after one or more user changes, the value is that of the last check alone, and loading is never true again |
| AdminContext.UseAdmin | src/context/AdminContext.tsx:12-20 | `useAdmin` never throws: it returns the provider's value, or the default (not admin, loading) outside a provider |
| AdminContext.AdminProvider.constructor | src/context/AdminContext.tsx:24-25 | the provider starts as the default: not admin, loading |
| AdminContext.AdminProvider.OnUserChange | src/context/AdminContext.tsx:27-48 | the state becomes the check of the new user and lookup |
| AdminPanel.WithId | src/pages/admin/AdminPanel.tsx:39-42 | `{id, ...data}`: every stored field kept, "id" added, a stored "id" field winning |
| AdminPanel.WithIds | src/pages/admin/AdminPanel.tsx:38-43 | one entry per document, in collection order |
| AdminPanel.OnAuthState | src/pages/admin/AdminPanel.tsx:28-52 | one callback appends at most one navigation and never rewrites earlier ones, replaces the list only with the fetched documents, and never turns loading on |
| AdminPanel.AuthDecision | src/pages/admin/AdminPanel.tsx:28-52 | no user goes to the login page; a non-admin or a failed read goes home; an admin gets the list. Loading stays on only for the non-admin path |
| AdminPanel.NonAdminKeepsSpinner | src/pages/admin/AdminPanel.tsx:31-35 | a signed-in non-admin is sent home and `loading` is left true |
| AdminPanel.ShownUsers | src/pages/admin/AdminPanel.tsx:146 | the management list is the first min(5, n) users, in order |
| AdminPanel.TotalUsers | src/pages/admin/AdminPanel.tsx:112 | the total is zero iff no user is loaded, and never less than the number listed |
| AdminPanel.EntryAvatar | src/pages/admin/AdminPanel.tsx:152 | in the intended render, the avatar is the upper-cased first two letters of a string username, else "U"; a truthy non-string username makes the render throw |
| AdminPanel.AdminSeesCounts | src/pages/admin/AdminPanel.tsx:112-154 | for an admin, the total card counts every document while the list holds the first five, each with its id; the intended page, when it renders, shows that total and one row per listed document with its status badge |
| AdminPanel.EntryViews | src/pages/admin/AdminPanel.tsx:146-185 | the rows exist iff every listed entry's avatar renders, and then row i carries entry i's avatar, badge and button labels |
| AdminPanel.Page | src/pages/admin/AdminPanel.tsx:72-185 | the intended page: the spinner iff loading; otherwise it fails iff some listed avatar throws, and else shows the total of all users and min(5, n) rows with each user's badge and button |
| AdminPanel.PageAsWritten | src/pages/admin/AdminPanel.tsx:2-20 | the page as written: the spinner iff loading; otherwise the render fails iff any user is loaded, because the list's avatar components are not imported; only the empty dashboard renders |
| AdminPanel.AdminListRenderFails | src/pages/admin/AdminPanel.tsx:146-154 | an admin with at least one user document gets no page as written, while the intended page renders the dashboard when no stored username is a truthy non-string |
| AdminPanel.PagesAgreeWithoutUsers | src/pages/admin/AdminPanel.tsx:72-185 | with no user loaded, the written and the intended page are the same |
| AdminPanel.IsVerified | src/pages/admin/AdminPanel.tsx:161-181 | an entry without the field, or with null, false, 0 or "" in it, is not verified; one with true is |
| AdminPanel.StatusLabel | src/pages/admin/AdminPanel.tsx:161-165 | the badge reads "Verified" iff the entry's isVerified field is truthy, otherwise "Not Verified" |
| AdminPanel.VerifyButtonLabel | src/pages/admin/AdminPanel.tsx:171-181 | the button reads "Remove" iff the entry is verified, otherwise "Verify" |
| AdminPanel.ButtonMatchesBadge | src/pages/admin/AdminPanel.tsx:161-181 | the button offers "Remove" exactly when the badge says "Verified" |
| AdminPanel.AdminPanelPage.constructor | src/pages/admin/AdminPanel.tsx:24-25 | the panel starts with no users and loading |
| AdminPanel.AdminPanelPage.OnAuthStateChanged | src/pages/admin/AdminPanel.tsx:28-52 | the state becomes the auth-decision transition of the old |
| AdminPanel.AdminPanelPage.HandleLogout | src/pages/admin/AdminPanel.tsx:57-64 | the page goes to the login page iff sign-out completes; the list and loading are unchanged |
| AdminPanel.AdminPanelPage.HandleVerifyUser | src/pages/admin/AdminPanel.tsx:66-70 | the verify handler changes no state |
| AdminLogin.GrantsAccess | src/pages/admin/AdminLogin.tsx:46 | a missing email never passes; an email starting with "admin" always does |
| AdminLogin.GateIsCaseSensitiveSubstring | src/pages/admin/AdminLogin.tsx:46 | the gate holds iff "admin" occurs verbatim in the email; no email without a lower-case "a", and no missing email, passes |
| AdminLogin.ErrorText | src/pages/admin/AdminLogin.tsx:57 | the error shown is the thrown message, or the fallback when it is empty; never empty |
| AdminLogin.InputChange | src/pages/admin/AdminLogin.tsx:25-30 | the named field takes the value and every other field is kept |
| AdminLogin.Submitting | src/pages/admin/AdminLogin.tsx:32-35 | while the sign-in is awaited, loading is set and the error cleared; form and navigation are kept |
| AdminLogin.Submitted | src/pages/admin/AdminLogin.tsx:32-61 | at the end loading is off and the form kept; the only possible navigation is to /admin; a thrown sign-in shows a non-empty error and does not navigate |
| AdminLogin.SubmitOutcome | src/pages/admin/AdminLogin.tsx:32-61 | loading is set and the error cleared while pending, and loading is cleared on every path. The page goes to /admin iff sign-in succeeds and the gate passes; otherwise an error is shown. The form is untouched |
| AdminLogin.EmailGateAdmitsNonAdmin | src/pages/admin/AdminLogin.tsx:46-54 | an email starting with "admin" passes the form, but the panel sends that account home when it has no admins document, leaving `loading` true |
| AdminLogin.EmailGateRefusesListedAdmin | src/pages/admin/AdminLogin.tsx:46-51 | an account with an admins document but no "a" in its email is refused by the form, although the panel would admit it |
| AdminLogin.AdminLoginPage.constructor | src/pages/admin/AdminLogin.tsx:17-23 | the form starts with empty email and password, no error, not loading, password hidden |
| AdminLogin.AdminLoginPage.HandleInputChange | src/pages/admin/AdminLogin.tsx:25-30 | the form becomes the input-change of the old form; nothing else changes |
| AdminLogin.AdminLoginPage.TogglePasswordVisibility | src/pages/admin/AdminLogin.tsx:138 | the eye button flips password visibility only |
| AdminLogin.AdminLoginPage.HandleSubmit | src/pages/admin/AdminLogin.tsx:32-61 | the pending state and the final state are those of the submit transition |

## Left out

- Backend calls (authentication, document reads and writes, storage
  uploads, sign-out) are not modelled. Only their outcomes appear, as
  parameters: completed or thrown, found or missing.
- Asynchronous interleaving is not modelled. A handler that awaits runs as
  one step, with its awaited outcomes given up front. React's batching of
  state updates is also left out.
- AdminContext.AdminProvider.OnUserChange: in the code, loading is not
  set back to true while a new user's lookup is pending. For that window
  the old `isAdmin` is still visible, and a stale lookup can finish after
  a newer one. The model runs each lookup to completion in order.
- `formatNumber` on the profile page is not modelled (floating-point
  division and rounding). Neither is `toLocaleString` in the likes line
  (locale formatting); `LikesLabel` keeps the count as an integer.
- Numbers are unbounded integers. JavaScript's doubles matter only beyond
  2^53, which these counters do not reach.
- `toUpperCase` is modelled on ASCII letters only. Strings are sequences
  of characters, not UTF-16 code units.
- Object URLs for previews are a parameter (`previewOf`). Revoking them
  after removal is left out, since it only frees memory.
- Upload paths built from `Date.now()`, `serverTimestamp()`, `console`
  and `alert` are left out (clock and I/O).
- The caption's 2200-character counter is display only; nothing enforces
  it.
- The shell's own `handleLogout` only calls sign-out and logs an error, so
  it changes no component state. Search inputs only store their text.
  Styling and icons are left out.
- Feed, Messages, Auth, Index, NotFound, App and main are not part of this
  model, and neither is the authentication context that supplies `user`.
- AdminPanel.EntryAvatar and AdminPanel.AdminSeesCounts describe the
  intended list, with the avatar components imported. As written, the file
  does not import `Avatar`, `AvatarImage` or `AvatarFallback`, so the list
  throws on its first entry. `AdminPanel.PageAsWritten` models that; see
  Findings.

## Findings

| source | as written | input that shows it | evidently intended | confidence | as-written member | corrected member |
|---|---|---|---|---|---|---|
| src/pages/admin/AdminPanel.tsx:149-154 | each row of the user list renders `Avatar`, `AvatarImage` and `AvatarFallback`, but the imports at lines 2-20 do not bring them in, so the first row throws a ReferenceError and the page does not render | an admin whose "users" collection holds one document: `OnAuthState(Initial, Some(u), Exists, Fetched([d]))` | import the three components from the avatar UI module, so the dashboard shows the total and up to five rows | high; not executed | AdminPanel.PageAsWritten, AdminPanel.AdminListRenderFails | AdminPanel.Page, AdminPanel.AdminSeesCounts |
