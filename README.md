# July-Portfolio front-end logic in Dafny

This project models the rules inside the handlers, hooks and contexts of a React
portfolio site. The site has a public list of projects and certificates, a project
detail page with an image gallery that admins can reorder, a review form, a session
store and an admin dashboard. Network calls, timers and library callbacks are inputs
to the model. A settled call is an `Outcome<T>`: `Ok(value)`, or `Err(Failure(message,
serverMessage))`, where `message` is the thrown error's `message`,
`serverMessage` is `err.response?.data?.message`, and "" stands for a missing or falsy
value. A handler that changes visible state before an `await` is split in two:

- a begin step, which covers everything up to the `await` and returns the request it sends;
- a settled step, which takes the outcome.

React state setters are direct field updates of a class.

Modules, one per source file, plus shared helpers:

- `Common`: `Option`, `Outcome`, `Failure`, the `{ loading, error, success }` status
  record, `s || fallback` on strings, subsequences, and the filter that drops empty strings.
- `Splice`: the "remove at `from`, insert at `to`" move that every drag handler uses on a
  copied array, with its index map, permutation and undo lemmas.
- `Text`: JavaScript `trim` (the full white-space set), `split` on one character,
  `join`, and decimal printing with its round trip.
- `ImageUrls` (`src/utils/imageUtils.js`): the port rewrite and the placeholder images.
- `ProjectDetail` (`src/pages/ProjectDetail.js`): image-list derivation, displayed
  image, thumbnails, and the upload/remove/reorder handlers on a `Page` class.
- `ImageUpload` (`src/components/ui/DragDropImageUpload.js`): an `Uploader` class over a
  bounded `seq` of files.
- `Gallery` (`src/components/ProjectGallery.js`): wrap-around navigation, drag-over and keys.
- `AdminDashboard` (`src/components/AdminDashboard.js`): the technologies parser and its
  display round trip, the edit forms, and a `Dashboard` class over the form state.
- `Auth` (`src/contexts/AuthContext.js`, `src/api/auth.js`): an `AuthProvider` class over
  the user, its flags and a storage map.
- `Paging`: query maps, `{ ...filters, ...params }`, effect re-triggering, page ranges.
- `UseProjects`, `UseCertificates`, `UseReviews` (`src/hooks/*.js`): fetch state machines.
- `CertificatesPage`, `ProjectsPage` (`src/pages/*.js`): filters, render precedence, pagination.
- `ReviewModal` (`src/components/ReviewModal.js`): validation, submit and edits.
- `Language` (`src/contexts/LanguageContext.js`): persisted language choice.

## Model

| member | source | states |
|---|---|---|
| Common.OrElse | src/pages/ProjectDetail.js:60 | `s \|\| fallback` on strings: a non-empty `s` wins, else the fallback |
| Splice.RemoveAt | src/components/ui/DragDropImageUpload.js:43 | `splice(i, 1)` on a copy: one shorter, elements before `i` kept, later ones shifted down by one |
| Splice.InsertAt | src/components/ui/DragDropImageUpload.js:76 | `splice(i, 0, x)` on a copy: `x` at `i`, earlier ones kept, later ones shifted up by one |
| Splice.Move | src/components/ui/DragDropImageUpload.js:74-76 | the moved element lands at `to`, the length is kept, and position `k` holds old position `MoveSource(from, to, k)` |
| Splice.MovePermutes | src/components/ui/DragDropImageUpload.js:74-79 | a move keeps the multiset of elements |
| Splice.MoveUndo | src/components/ProjectGallery.js:61-64 | moving from `to` back to `from` restores the original sequence |
| Splice.MoveInPlace | src/components/ProjectGallery.js:59 | a move onto its own position is the identity, so the guard skipping it loses nothing |
| Text.Trim | src/components/AdminDashboard.js:74 | `trim()`: the result starts and ends with non-white-space (JavaScript's set) |
| Text.TrimIsSlice | src/components/AdminDashboard.js:74 | `trim()` returns a slice `s[i..j]` of its input with only white space before `i` and from `j` on; so it is no longer than the input and keeps only its characters |
| Text.TrimAfterSpace | src/components/AdminDashboard.js:572 | trimming the blank that `join(', ')` put before an entry gives back that entry |
| Text.SplitPiecesFree | src/components/AdminDashboard.js:74 | no piece of `split(c)` contains `c` |
| Text.SplitJoin | src/components/AdminDashboard.js:74 | joining the pieces of `split(c)` with `c` gives back the string |
| Text.Split | src/components/AdminDashboard.js:74 | `split(c)` always returns at least one piece, even for '' |
| Text.Join | src/components/AdminDashboard.js:572 | `join(sep)` of no pieces is ''; otherwise the text starts with the first piece |
| Text.NatToString | src/components/ui/DragDropImageUpload.js:17 | a template literal's decimal digits: non-empty, all digits |
| Text.NatToStringValue | src/components/ui/DragDropImageUpload.js:17 | the printed digits denote the number itself |
| ImageUrls.FindFrom | src/utils/imageUtils.js:14 | the first position at or after `from` where the pattern occurs, or none; no earlier occurrence is skipped |
| ImageUrls.IndexOf | src/utils/imageUtils.js:14 | `includes` holds exactly when a first occurrence is found |
| ImageUrls.ReplaceFirst | src/utils/imageUtils.js:15 | `replace` with a string pattern: unchanged without an occurrence; otherwise the first occurrence is replaced by the new text and everything before and after it is kept |
| ImageUrls.FixImageUrl | src/utils/imageUtils.js:10-19 | the length is kept, and a URL without "localhost:5000" (including '') comes back unchanged |
| ImageUrls.FixReplacesFirst | src/utils/imageUtils.js:14-16 | with "localhost:5000" present, its first occurrence becomes "localhost:4000" and everything before and after is unchanged |
| ImageUrls.FixSingleOccurrence | src/utils/imageUtils.js:14-16 | a URL with one occurrence is fixed for good: no occurrence is left and fixing again is the identity |
| ImageUrls.PlaceholderImage | src/utils/imageUtils.js:26-33 | 'certificate' gives the certificate placeholder, every other type the project one |
| ProjectDetail.DerivedImages | src/pages/ProjectDetail.js:50-58 | a non-empty `additionalImages` gives its fixed URLs; otherwise a non-empty `allImages` gives its fixed URLs after the first; otherwise the list is left unchanged |
| ProjectDetail.DerivedMainImage | src/pages/ProjectDetail.js:43-47 | the main image is replaced by the fixed URL only for a record with a non-empty URL |
| ProjectDetail.CurrentImageUrl | src/pages/ProjectDetail.js:216-218 | position 0 is the main image, `i > 0` is additional image `i-1`, and it is undefined exactly past the end |
| ProjectDetail.DisplayedImage | src/pages/ProjectDetail.js:283 | a defined, non-empty current URL is shown as it is; an undefined or empty one shows the project placeholder |
| ProjectDetail.View | src/pages/ProjectDetail.js:220-244 | loading shows the spinner; an error, or no project ('Project not found'), shows the error view; otherwise the detail view |
| ProjectDetail.NewOrder | src/pages/ProjectDetail.js:174-178 | the order sent has one entry per additional image, and the dragged image's number sits at the destination |
| ProjectDetail.NewOrderPermutes | src/pages/ProjectDetail.js:174-178 | `newOrder` has length n, entries in 1..n, and each of 1..n exactly once |
| ProjectDetail.ReorderMatchesNewOrder | src/pages/ProjectDetail.js:174-184 | the optimistic list keeps the length and `reordered[k] == images[newOrder[k]-1]` |
| ProjectDetail.FilteredImages | src/pages/ProjectDetail.js:247 | `filter(Boolean)` on `[main, ...additional]`: no empty URL survives, every non-empty one keeps its multiplicity and order; a non-empty main URL comes first; an empty one leaves the filtered additional images |
| ProjectDetail.FilteredThumbnailsDisagree | src/pages/ProjectDetail.js:247 | with an empty main URL and images ["a","b"], the second filtered thumbnail shows "b" but its remove and select actions use "a" |
| ProjectDetail.ThumbnailImages | src/pages/ProjectDetail.js:410-431 | the unfiltered thumbnail list: every thumbnail `k > 0` shows the image that its remove button and its click address |
| ProjectDetail.RemovalIndexForThumbnail | src/pages/ProjectDetail.js:427-431 | removal at display position `k > 0` passes `k-1`, so the backend index equals `k` |
| ProjectDetail.BackendIndex | src/pages/ProjectDetail.js:132 | the backend index is the local index plus one, so at least 1 |
| ProjectDetail.StaleSelectionSurvives | src/pages/ProjectDetail.js:148 | the reset against the pre-removal length, as written: selecting the last of two images and removing it keeps selection 2, past the end of the one-image list, while the refreshed length resets it to 0 |
| ProjectDetail.SelectionAfterRemoval | src/pages/ProjectDetail.js:147-150 | against the length it is given, the reset always leaves a valid display position and keeps a selection that is still valid |
| ProjectDetail.Page.constructor | src/pages/ProjectDetail.js:18-30 | no project, loading, no error, empty images, selection 0, both statuses idle |
| ProjectDetail.Page.BeginLoad | src/pages/ProjectDetail.js:37-38 | loading on, error cleared, nothing else changes |
| ProjectDetail.Page.LoadSettled | src/pages/ProjectDetail.js:39-63 | success stores the record and derives both image fields; failure sets `message` or 'Failed to fetch project'; loading ends false |
| ProjectDetail.Page.ThumbnailClick | src/pages/ProjectDetail.js:92-94 | selects the clicked display position, which always names an image |
| ProjectDetail.Page.BeginUpload | src/pages/ProjectDetail.js:97 | the upload status goes in flight and nothing else changes |
| ProjectDetail.Page.UploadSettled | src/pages/ProjectDetail.js:99-125 | success stores the refresh and derives the images, with status success and no error; any failure sets `message` or 'Failed to upload images' and leaves the images unchanged |
| ProjectDetail.Page.RemoveImage | src/pages/ProjectDetail.js:128-154 | asks for backend index `index+1`; on success stores the refresh, derives the images and keeps the selection valid; on failure changes nothing |
| ProjectDetail.Page.BeginReorder | src/pages/ProjectDetail.js:156-187 | a drag with no destination, touching position 0, or onto itself changes nothing and sends nothing; otherwise the status goes in flight, the list is moved at once and `newOrder` is returned |
| ProjectDetail.Page.ReorderSettled | src/pages/ProjectDetail.js:189-211 | success sets success status and keeps the list; failure sets `message` or 'Failed to reorder images' and reloads the list from a successful refresh |
| ImageUpload.Uploader.constructor | src/components/ui/DragDropImageUpload.js:6-9 | empty list, not uploading, no error; the given bound, or 5 when the prop is undefined |
| ImageUpload.Uploader.OnDrop | src/components/ui/DragDropImageUpload.js:11-27 | over the bound: files unchanged and the maximum-files error; otherwise the accepted files appended in order and no error; the bound holds afterwards |
| ImageUpload.Uploader.RemoveFile | src/components/ui/DragDropImageUpload.js:38-46 | exactly element `i` is removed; the list is one shorter and keeps its order |
| ImageUpload.Uploader.DragEnd | src/components/ui/DragDropImageUpload.js:71-79 | no destination leaves the list; otherwise the move, with the multiset kept |
| ImageUpload.Uploader.BeginUpload | src/components/ui/DragDropImageUpload.js:48-58 | empty list: 'Please select at least one file to upload' and no call; otherwise uploading, error cleared, the files handed over |
| ImageUpload.Uploader.UploadSettled | src/components/ui/DragDropImageUpload.js:57-67 | success empties the list; failure keeps it with `message` or 'Failed to upload images'; uploading ends false |
| Gallery.Prev | src/components/ProjectGallery.js:13-15 | on a valid index of a list, the result is a valid index whose successor round the cycle is the old index |
| Gallery.Next | src/components/ProjectGallery.js:17-19 | on a valid index of a list, the result is the old index plus one round the cycle |
| Gallery.NavigationInRange | src/components/ProjectGallery.js:13-19 | for a non-empty list both moves stay in range; prev wraps 0 to the last, next wraps the last to 0 |
| Gallery.NavigationInverse | src/components/ProjectGallery.js:13-19 | prev after next, and next after prev, is the identity |
| Gallery.NextCycles | src/components/ProjectGallery.js:17-19 | `k` steps forward move `k` places round the cycle, so `length` steps return to the start |
| Gallery.KeyActionFor | src/components/ProjectGallery.js:76-87 | keys act only in fullscreen: ArrowLeft goes back, ArrowRight forward, f/F toggles; any other key, Escape included, does nothing |
| Gallery.ProjectGallery.constructor | src/components/ProjectGallery.js:6-9 | index 0, not fullscreen, nothing dragged |
| Gallery.ProjectGallery.GoToPrev | src/components/ProjectGallery.js:13-15 | the index becomes `Prev` of the old one |
| Gallery.ProjectGallery.GoToNext | src/components/ProjectGallery.js:17-19 | the index becomes `Next` of the old one |
| Gallery.ProjectGallery.DragStart | src/components/ProjectGallery.js:53-55 | the dragged index is set |
| Gallery.ProjectGallery.DragOver | src/components/ProjectGallery.js:57-68 | nothing dragged, or dragged onto itself: no reorder; otherwise the reordered list is a permutation with the dragged image at the target, and the target becomes the dragged index |
| Gallery.ProjectGallery.DragEnd | src/components/ProjectGallery.js:70-72 | the dragged index is reset to none |
| Gallery.ProjectGallery.FullscreenChanged | src/components/ProjectGallery.js:42-44 | the flag follows the document's fullscreen state |
| Gallery.ProjectGallery.KeyDown | src/components/ProjectGallery.js:76-87 | the key's action is applied to the index, or a toggle is requested |
| AdminDashboard.TrimAll | src/components/AdminDashboard.js:74 | `map(tech => tech.trim())`: same length, each piece trimmed |
| Common.DropEmpty | src/components/AdminDashboard.js:74 | `filter(tech => tech)` (and `filter(Boolean)` on strings) never lengthens the list |
| Common.DropEmptyCounts | src/components/AdminDashboard.js:74 | the filter keeps each non-empty entry as many times as it occurs and no empty entry |
| Common.DropEmptyKeepsOrder | src/components/AdminDashboard.js:74 | `filter(tech => tech)` keeps the survivors in their original order |
| Common.DropEmptyNoEmpty | src/components/AdminDashboard.js:74 | a list without empty entries passes the filter unchanged |
| Common.DropEmptyMembers | src/components/AdminDashboard.js:74 | an entry survives exactly when it is non-empty |
| AdminDashboard.ParseTechnologies | src/components/AdminDashboard.js:73-79 | every parsed entry is non-empty, trimmed and comma-free |
| AdminDashboard.TechnologiesText | src/components/AdminDashboard.js:572 | `join(', ')`: '' for no technologies, otherwise the text starts with the first one; `ParseDisplayRoundTrip` is its inverse |
| AdminDashboard.SplitJoined | src/components/AdminDashboard.js:572 | splitting the displayed text of comma-free entries gives the first entry, then each later entry with one leading blank |
| AdminDashboard.ParseDisplayRoundTrip | src/components/AdminDashboard.js:572 | parsing `ts.join(', ')` gives back `ts` for well-formed entries |
| AdminDashboard.ParseStable | src/components/AdminDashboard.js:74 | display-then-parse leaves a parsed list unchanged |
| AdminDashboard.DatePart | src/components/AdminDashboard.js:140-141 | the text before the first 'T' (a prefix with no 'T', followed by 'T' if shorter), or '' without a date |
| AdminDashboard.CertificateEditForm | src/components/AdminDashboard.js:137-148 | the empty form's fields; title and issuer copied; both dates free of 'T' |
| AdminDashboard.CertificateEditValues | src/components/AdminDashboard.js:139-147 | each date is the part before its 'T'; each optional text the record carries is copied; featured is set exactly when the record says true; order is the record's, else 0 |
| AdminDashboard.CertificateEditFields | src/components/AdminDashboard.js:137-148 | every field holds the kind of value the empty form holds there, and a field the record leaves out keeps its empty value |
| AdminDashboard.ProjectEditForm | src/components/AdminDashboard.js:154-163 | the empty form's fields; title and technologies copied |
| AdminDashboard.ProjectEditValues | src/components/AdminDashboard.js:156-163 | each optional text the record carries is copied; technologies are the record's or []; featured is set exactly when the record says true; order is the record's, else 0 |
| AdminDashboard.ProjectEditFields | src/components/AdminDashboard.js:154-163 | every field holds the kind of value the empty form holds there, and a field the record leaves out keeps its empty value |
| AdminDashboard.InputChange | src/components/AdminDashboard.js:57-71 | only the named field changes: `checked` for a checkbox, the text value otherwise |
| AdminDashboard.DashboardView | src/components/AdminDashboard.js:42-55 | a non-admin gets exactly the access-denied view |
| AdminDashboard.SaveRequestFor | src/components/AdminDashboard.js:84-88 | update with the edited record's id when editing, else create; always with the form |
| AdminDashboard.Dashboard.constructor | src/components/AdminDashboard.js:15-40 | certificates tab, form hidden, nothing edited, both forms empty |
| AdminDashboard.Dashboard.SelectTab | src/components/AdminDashboard.js:208 | only the tab changes |
| AdminDashboard.Dashboard.OpenForm | src/components/AdminDashboard.js:238 | only `showForm` becomes true |
| AdminDashboard.Dashboard.CertificateInputChange | src/components/AdminDashboard.js:57-63 | the certificate form takes `InputChange`; nothing else changes |
| AdminDashboard.Dashboard.ProjectInputChange | src/components/AdminDashboard.js:65-71 | the project form takes `InputChange`; nothing else changes |
| AdminDashboard.Dashboard.TechnologiesChange | src/components/AdminDashboard.js:73-79 | the technologies field holds the parsed list; nothing else changes |
| AdminDashboard.Dashboard.SubmitCertificate | src/components/AdminDashboard.js:81-107 | sends the request for the edited record; success resets and hides the form, clears editing and refetches; failure changes nothing |
| AdminDashboard.Dashboard.SubmitProject | src/components/AdminDashboard.js:109-133 | the same for projects |
| AdminDashboard.Dashboard.EditCertificate | src/components/AdminDashboard.js:135-150 | the record is being edited, the form is shown, and the form is its edit form, whose every field `CertificateEditValues` and `CertificateEditFields` state against the record |
| AdminDashboard.Dashboard.EditProject | src/components/AdminDashboard.js:152-165 | the same for projects, with `ProjectEditValues` and `ProjectEditFields` |
| AdminDashboard.Dashboard.CancelCertificate | src/components/AdminDashboard.js:392-407 | form hidden, editing cleared, certificate form emptied |
| AdminDashboard.Dashboard.CancelProject | src/components/AdminDashboard.js:637-651 | form hidden, editing cleared, project form emptied |
| AdminDashboard.Delete | src/components/AdminDashboard.js:167-187 | the delete call is made exactly when confirmed, and the refetch exactly after a successful delete |
| Auth.StoreSession | src/contexts/AuthContext.js:44-45 | the token and the serialised user are stored under their keys, a missing one as the text "undefined"; other keys unchanged |
| Auth.ClearSession | src/api/auth.js:18-21 | both session keys removed, other keys unchanged |
| Auth.ClearSessionIdempotent | src/api/auth.js:18-21 | logging out twice leaves storage as logging out once |
| Auth.StoreThenClear | src/contexts/AuthContext.js:74-78 | logout after login leaves storage as logout alone: only the two keys were touched |
| Auth.StoredSessionRestores | src/contexts/AuthContext.js:20-21 | after a sign-in, the next start asks for the profile unless the token was empty; a missing token was stored as "undefined", which is truthy |
| Auth.IsAuthenticated | src/contexts/AuthContext.js:92 | true exactly when a user is set |
| Auth.IsAdmin | src/contexts/AuthContext.js:93 | the user's flag, false with nobody signed in, and only for an authenticated session |
| Auth.UseAuth | src/contexts/AuthContext.js:6-12 | the context, or the error 'useAuth must be used within an AuthProvider' outside a provider |
| Auth.AuthProvider.constructor | src/contexts/AuthContext.js:15-17 | no user, loading, no error |
| Auth.AuthProvider.Restore | src/contexts/AuthContext.js:19-35 | the profile is requested exactly when the stored token is truthy; without one, loading ends |
| Auth.AuthProvider.ProfileSettled | src/contexts/AuthContext.js:22-32 | success sets the user to the response's user, none when it has none; failure removes both keys; loading ends false |
| Auth.AuthProvider.BeginSignIn | src/contexts/AuthContext.js:38-41 | `login` (and `register` at lines 56-59) before the `await`: only the error is cleared |
| Auth.AuthProvider.LoginSettled | src/contexts/AuthContext.js:41-53 | success stores the session and sets the response's user (none when it has none); failure sets the server message or 'Login failed' and leaves user and storage unchanged; the outcome is passed on |
| Auth.AuthProvider.RegisterSettled | src/contexts/AuthContext.js:59-71 | the same with 'Registration failed' |
| Auth.AuthProvider.SignInSettled | src/contexts/AuthContext.js:41-71 | the steps both share after the `await`, with the fallback message as a parameter |
| Auth.AuthProvider.Logout | src/contexts/AuthContext.js:74-78 | both keys removed; user and error cleared, so the session is neither authenticated nor admin |
| Auth.AuthProvider.ClearError | src/contexts/AuthContext.js:80-82 | only the error is cleared |
| Paging.Merge | src/hooks/useProjects.js:14 | `{ ...filters, ...params }`: all keys of both, with `params` winning |
| Paging.MergeNothing | src/hooks/useProjects.js:28-30 | no extra parameters sends the filters themselves |
| Paging.MergeTwice | src/hooks/useProjects.js:14 | spreading the same parameters twice is spreading them once |
| Paging.PageNumbers | src/pages/Certificates.js:174 | `Array.from({ length: pages }, (_, i) => i + 1)`: `[1..pages]`, empty below 1 |
| Paging.PageNumbersAscending | src/pages/Certificates.js:174 | the buttons strictly ascend and are exactly the pages 1..pages |
| UseProjects.ProjectsHook.constructor | src/hooks/useProjects.js:5-8 | no projects, loading, no error, no pagination |
| UseProjects.ProjectsHook.BeginFetch | src/hooks/useProjects.js:12-14 | loading on, error cleared, the merged query sent |
| UseProjects.ProjectsHook.FetchSettled | src/hooks/useProjects.js:15-21 | success sets projects and pagination; failure sets the server message or 'Failed to fetch projects' and keeps them; loading ends false |
| UseProjects.ProjectsHook.Render | src/hooks/useProjects.js:24-26 | a fetch with exactly the filters starts exactly when they differ from the last run's |
| UseProjects.ProjectsHook.Refetch | src/hooks/useProjects.js:28-30 | fetches with the current filters and nothing else |
| UseCertificates.CertificatesHook.constructor | src/hooks/useCertificates.js:5-8 | no certificates, loading, no error, no pagination |
| UseCertificates.CertificatesHook.BeginFetch | src/hooks/useCertificates.js:10-14 | loading on, error cleared, the parameters sent as given; `refetch` is this same operation |
| UseCertificates.CertificatesHook.FetchSettled | src/hooks/useCertificates.js:15-21 | success sets certificates and pagination; failure sets the server message or 'Failed to fetch certificates' and keeps them; loading ends false |
| UseCertificates.CertificatesHook.Render | src/hooks/useCertificates.js:24-26 | a fetch starts exactly when the parameters differ from the last run's |
| UseReviews.WithoutReview | src/hooks/useReviews.js:45 | no review with the id survives |
| UseReviews.WithoutReviewExact | src/hooks/useReviews.js:45 | exactly the reviews with the id go, every other one keeps its multiplicity, and the order is kept |
| UseReviews.WithoutReviewIdempotent | src/hooks/useReviews.js:45 | filtering the same id twice is filtering once |
| UseReviews.WithoutAbsentReview | src/hooks/useReviews.js:45 | a list without the id is unchanged |
| UseReviews.ReviewsHook.constructor | src/hooks/useReviews.js:5-8 | no reviews, loading, no error, no pagination |
| UseReviews.ReviewsHook.BeginFetch | src/hooks/useReviews.js:10-16 | nothing happens without a project id; otherwise loading on and error cleared |
| UseReviews.ReviewsHook.FetchSettled | src/hooks/useReviews.js:16-23 | success sets reviews and pagination; failure sets `message` or 'Failed to fetch reviews' and keeps them; loading ends false |
| UseReviews.ReviewsHook.SubmitReview | src/hooks/useReviews.js:30-39 | the create outcome is returned or rethrown; after a success the refetch starts |
| UseReviews.ReviewsHook.DeleteReview | src/hooks/useReviews.js:41-50 | success filters the id out and returns true; failure is rethrown with the reviews unchanged |
| CertificatesPage.FilterChange | src/pages/Certificates.js:19-25 | the key is set, the page goes back to 1, other keys are unchanged |
| CertificatesPage.PageChange | src/pages/Certificates.js:27-29 | only the page changes |
| CertificatesPage.FilterChangeOverrides | src/pages/Certificates.js:19-25 | a second change of the same key replaces the first |
| CertificatesPage.ViewFor | src/pages/Certificates.js:31-59 | loading first, then the error, then 'No certificates found' for an empty list, then the grid |
| CertificatesPage.PageButtons | src/pages/Certificates.js:163-186 | no page buttons with the spinner or the error, or with at most one page; otherwise the buttons 1..pages below the grid or the empty notice |
| CertificatesPage.PreviousButton | src/pages/Certificates.js:166-168 | disabled exactly on page 1; asks for page-1 |
| CertificatesPage.NextButton | src/pages/Certificates.js:188-190 | disabled exactly on the last page; asks for page+1 |
| CertificatesPage.StepButtonsStayInRange | src/pages/Certificates.js:163-191 | on a page in range, an enabled step button asks for a page among the page buttons |
| CertificatesPage.Page.constructor | src/pages/Certificates.js:9-15 | featured false, limit 12, page 1, sort by 'order' ascending |
| CertificatesPage.Page.HandleFilterChange | src/pages/Certificates.js:19-25 | the filters take `FilterChange` |
| CertificatesPage.Page.HandlePageChange | src/pages/Certificates.js:27-29 | the filters take `PageChange` |
| ProjectsPage.FilterChange | src/pages/Projects.js:17-19 | only that key changes |
| ProjectsPage.PageButtonClick | src/pages/Projects.js:190 | a page button sets only the 'page' key |
| ProjectsPage.FilterChangeKeepsPage | src/pages/Projects.js:17-19 | a filter change keeps the current page |
| ProjectsPage.ViewFor | src/pages/Projects.js:43-197 | an error replaces everything, whether or not loading; otherwise spinner, 'No projects found' or cards, and the page buttons whenever there is more than one page, even while loading |
| ProjectsPage.Page.constructor | src/pages/Projects.js:9-13 | featured false, sort by 'createdAt' descending |
| ProjectsPage.Page.HandleFilterChange | src/pages/Projects.js:17-19 | the filters take `FilterChange` |
| ReviewModal.EmptyForm | src/components/ReviewModal.js:9-14 | name '', rating 0, comment '', the given project or '' |
| ReviewModal.Validate | src/components/ReviewModal.js:37-45 | rating 0 is refused first, then a comment that trims to ''; the form passes exactly when both are present |
| ReviewModal.BlankCommentRejected | src/components/ReviewModal.js:42-45 | a comment of white space only is refused |
| ReviewModal.VisibleCommentAccepted | src/components/ReviewModal.js:37-45 | a rated form whose comment has a character that is not white space passes validation |
| ReviewModal.ResetFormNeedsRating | src/components/ReviewModal.js:51 | a form just reset is refused for its missing rating |
| ReviewModal.ApplyEdit | src/components/ReviewModal.js:60 | only the edited field changes |
| ReviewModal.Modal.constructor | src/components/ReviewModal.js:9-17 | the empty form, no projects, not loading, no error |
| ReviewModal.Modal.OpenEffect | src/components/ReviewModal.js:19-23 | the project list is fetched exactly when the modal is open and no project id was given |
| ReviewModal.Modal.ProjectsFetched | src/components/ReviewModal.js:25-32 | success replaces the project list; failure keeps it |
| ReviewModal.Modal.BeginSubmit | src/components/ReviewModal.js:34-50 | an invalid form sets the validation message and is not sent; a valid one is sent with loading on and the error cleared |
| ReviewModal.Modal.SubmitSettled | src/components/ReviewModal.js:50-56 | success resets the form; failure keeps it with `message` or the translated fallback; loading ends false |
| ReviewModal.Modal.InputChange | src/components/ReviewModal.js:59-62 | the field takes the edit and the error is cleared |
| Language.InitialLanguage | src/contexts/LanguageContext.js:16-22 | the stored language when present and non-empty, else 'en' |
| Language.PersistedLanguageRestored | src/contexts/LanguageContext.js:26 | what the effect stores is what the next start picks up |
| Language.UseLanguage | src/contexts/LanguageContext.js:6-12 | the context, or the error 'useLanguage must be used within a LanguageProvider' outside a provider |
| Language.LanguageProvider.constructor | src/contexts/LanguageContext.js:16-22 | the current language is `InitialLanguage` of storage |
| Language.LanguageProvider.ChangeLanguage | src/contexts/LanguageContext.js:29-31 | the current language becomes the argument |
| Language.LanguageProvider.SyncEffect | src/contexts/LanguageContext.js:24-27 | the translation library and storage both take the current language, which a restart would restore |

## Left out

- Three.js backgrounds, layout, home page, cards and the language selector: these are markup and animation with no rules of their own.
- Certificate expiry display: it depends on `Date` parsing, the clock and locale formatting.
- The axios API modules: their results are the `Outcome` inputs. The multipart bodies, headers and the project id in each URL are not modelled.
- The success banners' 3-second `setTimeout` reset: timers are not modelled.
- The fullscreen API and `window.confirm`: they become inputs (`FullscreenChanged`, and `confirmed` in `Delete`). `console` logging is omitted.
- Preview object URLs: `File` carries no preview.
- The react-dropzone checks: `maxSize` 5242880 and the image type are enforced by the library before `onDrop`, so `OnDrop` receives only accepted files.
- The react-beautiful-dnd internals: only the source and destination indices it delivers are modelled, and those are required to name rendered items.
- i18n lookups: the translated review fallback is the `fallback` parameter of `SubmitSettled`, and the i18n language is a field.
- Response races and unmount cancellation: each settled step is one atomic update.
- `JSON.stringify` of filters: treated as injective and so as map equality. Key order, which the real string depends on, is not modelled.
- `useReviews` `refetch` and the effect on `projectId`: both are `BeginFetch`, and the hook's `projectId` is fixed per instance.
- ProjectDetail review submission and deletion wrappers, the delete-confirmation dialog, `imageError`, `showImageUploader` and `isReordering`: these are presentation toggles around calls modelled in `UseReviews`.
- ProjectDetail.Page.RemoveImage: models the corrected selection reset (see Findings), not the stale-length check as written.
- ProjectDetail.ThumbnailImages: models the corrected unfiltered list (see Findings), not `filter(Boolean)` as written.

## Findings

| source | as written | input that shows it | evidently intended | confidence | as-written member | corrected member |
|---|---|---|---|---|---|---|
| src/pages/ProjectDetail.js:247 | thumbnails come from `[mainImageUrl, ...additionalImages].filter(Boolean)`, but removal passes `index - 1` and clicking selects `index` in the unfiltered numbering | main URL '' and additional images ["a","b"]: the second thumbnail shows "b", but its remove button deletes "a" and clicking it shows "a" | thumbnail `k` shows, removes and selects the same image | high, not executed | ProjectDetail.FilteredThumbnailsDisagree | ProjectDetail.ThumbnailImages |
| src/pages/ProjectDetail.js:148 | after a removal, the reset compares the selection with `additionalImages.length` from the render before the removal | images ["a","b"], selection 2, the server returns ["a"]: the selection stays 2, past the end, so the placeholder is shown | reset when the selection is past the end of the refreshed list | medium, not executed | ProjectDetail.StaleSelectionSurvives | ProjectDetail.SelectionAfterRemoval |
