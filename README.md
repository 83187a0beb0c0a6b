# ShopyBucks staff dashboard — verified model of its local logic

The staff dashboard is a thin client over a remote API. What it decides locally, and what
this project models and proves, is:

- **Order tracking** (`order_tracking.dfy`): an order status string is placed on the fixed
  fulfilment stages PENDING → ACCEPTED → PACKED → SHIPPED → DELIVERED. The stepper derives a
  progress percentage, per-stage completed/current flags, the truck and line visibility, and
  a separate marker for CANCELLED and RETURNED. Every status falls into exactly one case:
  linear stage, terminal, or unrecognised.
- **Auth gate** (`middleware.dfy`): `/login` is always served. Any other path
  needs an `employee_token` cookie, otherwise the request is redirected to `/login`.
- **Sidebar** (`sidebar.dfy`): the four menu links, the rule that highlights the current
  page's link, the mobile drawer flag, and the sign-out confirmation, with its effect on
  `localStorage` and the router.
- **Campaign overview table** (`campaign_list.dfy`): the credits spent and remaining per
  campaign, folded over its products; the status badge lookup; the seller-name fallback.
- **Campaign moderation** (`campaign_moderation.dfy`): the `actionLoading` / `rejecting` /
  `reason` state of the approval page, the approve, reject and Go Back handlers, and the
  enabling rules of the buttons. Each asynchronous handler is split at its `await`s. The
  synchronous prefix (`Approve`, `Reject`) is one method, and the continuations run when the
  request settles (`PostSettled`, `ListSettled`). The outcome of each request is a parameter.
  `RunApprove` and `RunReject` chain the pieces for a handler that runs with nothing
  interleaved.
- `js_text.dfy` models the part of JavaScript's `String.prototype.trim` used by the Confirm
  Rejection button. `options.dfy` holds the optional-value type (`null`/`undefined` or a value).

Pure source code (the stepper, the gate, the folds and lookups) is modelled with datatypes,
functions and lemmas. The two pages whose handlers update state are modelled as classes
(`Sidebar.SidebarState`, `CampaignModeration.ModerationPage`) whose methods state the whole new state.

For a terminal status the stepper computes a percentage of 0 but never draws the progress
line, so the model has no line at all for CANCELLED and RETURNED (`progressLine == None`)
rather than a line at 0.

Two behaviours of the source are proved as they are. The first is in the sidebar: its prefix
match does not stop at a path-segment boundary, so `/orders-archive` highlights "Orders"
(`ActiveOnDeeperPages` holds for any suffix). The second is in sign-out: it removes the token
from `localStorage` only. The `employee_token` cookie that the gate checks is left in place,
as a comment at that spot in the source notes. `ConfirmLogout` leaves the cookie jar unchanged,
and it ensures that if the token cookie was present, the gate still passes every path.

## Model

| member | source | states |
|---|---|---|
| OrderTracking.IndexOf | components/OrderTracking.tsx:15 | `indexOf`: the result is -1 exactly when the status is absent; otherwise it is the first position holding the status |
| OrderTracking.CurrentIndex | components/OrderTracking.tsx:11-15 | the stage index lies in -1..4; at 0 or above it names a stage equal to the status; it is -1 exactly when the status is not a stage |
| OrderTracking.ProgressPercent | components/OrderTracking.tsx:18-20 | the percentage lies in 0..100; it is 25·index for a stage, and 0 otherwise |
| OrderTracking.ExactQuarter | components/OrderTracking.tsx:19 | for the indices 0..4, index·100/4 is exactly 25·index, so the formula loses nothing to rounding |
| OrderTracking.IsCancelled | components/OrderTracking.tsx:13 | the CANCELLED test; a cancelled status is never a stage name |
| OrderTracking.IsReturned | components/OrderTracking.tsx:14 | the RETURNED test; a returned status is never a stage name |
| OrderTracking.IsTerminal | components/OrderTracking.tsx:13-14 | a terminal status (CANCELLED or RETURNED) has stage index -1 |
| OrderTracking.StageInitials | components/OrderTracking.tsx:11 | every stage name starts with P, A, S or D, and neither CANCELLED nor RETURNED is a stage name |
| OrderTracking.StepAt | components/OrderTracking.tsx:58-76 | step i carries the i-th stage name; it is completed iff the stage index is at least i, current iff the index is i (a current step is completed), and it shows a check mark when completed and the number i+1 otherwise |
| OrderTracking.Classify | components/OrderTracking.tsx:13-15 | the three cases: Linear exactly for a stage name (at its position), Terminal exactly for CANCELLED/RETURNED, Unrecognised for everything else |
| OrderTracking.Track | components/OrderTracking.tsx:22-116 | the rendered stepper has one step view per stage, in stage order |
| OrderTracking.StepsDistinct | components/OrderTracking.tsx:11 | the five stage names are pairwise distinct |
| OrderTracking.StageIndexIsPosition | components/OrderTracking.tsx:11-15 | each stage's index is its zero-based position (PENDING=0 … DELIVERED=4) |
| OrderTracking.TerminalIsNotAStage | components/OrderTracking.tsx:13-15 | CANCELLED and RETURNED have index -1 |
| OrderTracking.StageIsNotTerminal | components/OrderTracking.tsx:11-14 | no stage name is a terminal status |
| OrderTracking.ExactlyOneCase | components/OrderTracking.tsx:13-15 | the classification is Linear iff the stage index is at least 0, Terminal iff the status is CANCELLED or RETURNED, and Unrecognised iff neither; no status is both a stage and terminal |
| OrderTracking.ProgressEnds | components/OrderTracking.tsx:18-20 | PENDING gives 0 and DELIVERED gives 100 |
| OrderTracking.ProgressStrictlyIncreasing | components/OrderTracking.tsx:18-20 | stage i has percentage 25·i, so consecutive stages strictly increase |
| OrderTracking.StepFlags | components/OrderTracking.tsx:58-76 | step i is completed iff the status is a linear stage at or after i; it is current iff the status is stage i; it shows a check mark when completed and its number i+1 otherwise |
| OrderTracking.CompletedStepsFormPrefix | components/OrderTracking.tsx:59 | if a step is completed, every earlier step is completed too |
| OrderTracking.AtMostOneCurrent | components/OrderTracking.tsx:59-60 | at most one step is current; it is completed and no later step is |
| OrderTracking.TerminalStatusView | components/OrderTracking.tsx:30-111 | for CANCELLED/RETURNED: no step is completed or current, there is no line and no truck, and the matching terminal marker carries the status as its caption |
| OrderTracking.UnrecognisedView | components/OrderTracking.tsx:29-38 | for an unrecognised status: no step is completed or current, the line is at 0, and there is no truck and no terminal marker |
| OrderTracking.LinearView | components/OrderTracking.tsx:18-60 | at stage k: exactly steps 0..k are completed, only k is current, line and truck are at 25·k, and there is no terminal marker |
| OrderTracking.TruckIff | components/OrderTracking.tsx:37-44 | the truck is shown iff the status is not terminal and its index is at least 0, i.e. iff it is a linear stage; it sits at the end of the line |
| Middleware.Decide | middleware.ts:4-28 | `/login` always passes; any other path passes iff the token cookie is present; a redirect always goes to `/login`, and never from it |
| Middleware.OnlyPresenceMatters | middleware.ts:6-27 | two cookie jars that agree on whether the token exists get the same decision |
| Middleware.EmptyTokenPasses | middleware.ts:21-27 | a token cookie with an empty value still passes |
| Middleware.NoRedirectLoop | middleware.ts:15-24 | the target of a redirect is always passed |
| Sidebar.IsActive | components/Sidebar.tsx:37 | a link is active only when its href is a prefix of the path |
| Sidebar.ActiveFlags | components/Sidebar.tsx:22-37 | gives one highlight flag per menu link, set by `isActive`; at most one flag is set |
| Sidebar.ActiveOnOwnPage | components/Sidebar.tsx:37 | each link is active on its own href |
| Sidebar.ActiveOnDeeperPages | components/Sidebar.tsx:37 | every link except the dashboard stays active on its href followed by any suffix |
| Sidebar.DashboardExactOnly | components/Sidebar.tsx:37 | the dashboard link is active iff the path is exactly `/dashboard` |
| Sidebar.HrefsPrefixFree | components/Sidebar.tsx:22-27 | no menu href is a prefix of another |
| Sidebar.AtMostOneActive | components/Sidebar.tsx:22-37 | two active links on one path are the same link |
| Sidebar.SidebarState.constructor | components/Sidebar.tsx:19-20 | the drawer starts closed and the confirmation starts hidden |
| Sidebar.SidebarState.TapMenuButton | components/Sidebar.tsx:65 | the mobile menu button opens the drawer and changes nothing else |
| Sidebar.SidebarState.TapOverlay | components/Sidebar.tsx:78 | the overlay closes the drawer and changes nothing else |
| Sidebar.SidebarState.TapCloseButton | components/Sidebar.tsx:96 | the X button closes the drawer and changes nothing else |
| Sidebar.SidebarState.ClickLink | components/Sidebar.tsx:43 | a link click closes the drawer and changes nothing else |
| Sidebar.SidebarState.TapSignOut | components/Sidebar.tsx:126 | "Sign Out" only shows the confirmation; storage and router are untouched |
| Sidebar.SidebarState.TapCancel | components/Sidebar.tsx:160 | "Cancel" hides the confirmation and does not log out |
| Sidebar.SidebarState.ConfirmLogout | components/Sidebar.tsx:29-34 | "Yes, Sign Out" removes `employee_token` from `localStorage`, keeps every other key, and pushes `/login`; the cookie jar is unchanged, so with the token cookie present the gate still passes every path |
| CampaignList.SpentFold | app/campaigns_list/page.tsx:79-82 | the left fold of allocated−remaining from `acc` equals `acc` plus total allocated minus total remaining |
| CampaignList.RemainingFold | app/campaigns_list/page.tsx:83-86 | the left fold of remaining from `acc` equals `acc` plus total remaining |
| CampaignList.Spent | app/campaigns_list/page.tsx:79-82 | `spent` equals total allocated minus total remaining |
| CampaignList.Remaining | app/campaigns_list/page.tsx:83-86 | `remaining` equals total remaining |
| CampaignList.CreditsConserved | app/campaigns_list/page.tsx:79-86 | spent + remaining = total allocated; both are 0 for no products |
| CampaignList.OverdrawnSpendIsNegative | app/campaigns_list/page.tsx:80 | nothing clamps the spend: it is negative when every product's remaining credits exceed its allocated credits |
| CampaignList.SpendNonNegative | app/campaigns_list/page.tsx:80 | the spend is at least 0 when no product's remaining credits exceed its allocation |
| CampaignList.StatusStyle | app/campaigns_list/page.tsx:20-29 | the badge class is never empty; it is either the gray default or the class the table lists for the status |
| CampaignList.StatusStylesEntries | app/campaigns_list/page.tsx:21-27 | the table has exactly the keys PENDING, ACTIVE, PAUSED, COMPLETED and REJECTED, each with its listed class |
| CampaignList.StatusStyleSeparates | app/campaigns_list/page.tsx:20-29 | the lookup is total and never empty; it gives the gray default iff the status is not listed; distinct listed statuses get distinct classes |
| CampaignList.StatusStyleTable | app/campaigns_list/page.tsx:20-29 | gives the listed class for each of the five statuses; a status in another case (`pending`) gets the default |
| CampaignList.SellerLabel | app/campaigns_list/page.tsx:96 | the seller cell is never empty; it shows the seller's name when a seller exists and its name is non-empty, and "Independent Seller" otherwise |
| CampaignList.RowOf | app/campaigns_list/page.tsx:78-121 | a table row shows the campaign's name and status, the seller label, the status badge class, spent = total allocated − total remaining and remaining = total remaining; so spent + remaining is the total allocation, the seller cell is non-empty, and the badge is gray iff the status is not listed |
| JsText.TrimStart | app/campaigns/page.tsx:196 | the result is a suffix of the input that does not start with white space, and what it drops is all white space |
| JsText.TrimEnd | app/campaigns/page.tsx:196 | the result is a prefix of the input that does not end with white space, and what it drops is all white space |
| JsText.Trim | app/campaigns/page.tsx:196 | `s.trim()` is the block of `s` that starts where the leading white space ends, with only white space after it; it is empty or neither starts nor ends with white space |
| JsText.TrimEmptyIff | app/campaigns/page.tsx:196 | `s.trim()` is empty iff every character of `s` is white space |
| JsText.TrimIdempotent | app/campaigns/page.tsx:196 | trimming twice is trimming once |
| CampaignModeration.DisplayName | app/campaigns/page.tsx:113 | the seller shown is the business name when it is present (even if empty), and the name otherwise |
| CampaignModeration.EmptyBusinessNameKept | app/campaigns/page.tsx:113 | an empty business name is shown as an empty string; there is no fallback to the name |
| CampaignModeration.ActionButtonsDisabled | app/campaigns/page.tsx:145-152 | the card buttons are disabled iff an action is in flight; when none is, every Approve caption reads "Approve" |
| CampaignModeration.ConfirmDisabled | app/campaigns/page.tsx:196 | Confirm Rejection is disabled iff the reason is all white space or an action is in flight |
| CampaignModeration.ApproveCaption | app/campaigns/page.tsx:148 | the caption is "Approving..." iff `actionLoading` is this campaign's id, and "Approve" otherwise |
| CampaignModeration.ButtonsOf | app/campaigns/page.tsx:143-156 | a card's Approve and Reject buttons are both disabled exactly when an action is in flight, and the Approve caption is the one `ApproveCaption` gives for the card's id |
| CampaignModeration.CardsWhileInFlight | app/campaigns/page.tsx:106-156 | while an action is in flight, every card's buttons are disabled, and "Approving..." shows exactly on the cards with that id |
| CampaignModeration.ModerationPage.constructor | app/campaigns/page.tsx:32-52 | on mount the list is empty, nothing is selected, the reason is empty, and the first list fetch is outstanding with `loading` set |
| CampaignModeration.ModerationPage.ListSettled | app/campaigns/page.tsx:38-48 | when the list fetch settles, a success replaces the list and a failure keeps it; `loading` clears, as does `actionLoading` if an action was waiting on the reload |
| CampaignModeration.ModerationPage.Approve | app/campaigns/page.tsx:56-59 | approving sets `actionLoading` to the id and sends the approve POST; the list, `rejecting` and `reason` are unchanged |
| CampaignModeration.ModerationPage.SelectForRejection | app/campaigns/page.tsx:151 | the Reject button selects that campaign for rejection |
| CampaignModeration.ModerationPage.EditReason | app/campaigns/page.tsx:179 | typing replaces the reason |
| CampaignModeration.ModerationPage.GoBack | app/campaigns/page.tsx:186-189 | Go Back clears `rejecting` and resets `reason` to "" |
| CampaignModeration.ModerationPage.Reject | app/campaigns/page.tsx:66-70 | with no campaign selected nothing changes; otherwise `actionLoading` becomes the selected id and the reject POST carries the current reason |
| CampaignModeration.ModerationPage.PostSettled | app/campaigns/page.tsx:56-76 | a failed POST clears `actionLoading` and keeps `rejecting` and `reason`; a successful one clears both for a rejection and starts the reload, keeping `actionLoading` |
| CampaignModeration.ModerationPage.RunApprove | app/campaigns/page.tsx:56-64 | a whole approve ends with `actionLoading` cleared whatever the outcomes; only a successful POST is followed by a reload |
| CampaignModeration.ModerationPage.RunReject | app/campaigns/page.tsx:66-77 | a whole reject is a no-op without a selection; with one, success clears `rejecting` and `reason`, failure keeps them, `actionLoading` always ends cleared, and the list is replaced only when the POST and the reload both succeed |
| CampaignModeration.ButtonsLockedWhilePosting | app/campaigns/page.tsx:145-196 | while a POST is outstanding, every action button and Confirm Rejection are disabled, and an approval shows "Approving..." |
| CampaignModeration.ButtonsFreeWhenIdle | app/campaigns/page.tsx:145-152 | when nothing is outstanding, the page is not loading and the action buttons are enabled |

## Left out

- Logging: the `console.log` calls of the gate and the `console.error` of a failed list fetch write to the console and change no state.
- The gate's `matcher` pattern (middleware.ts:33) is interpreted by the framework. The model assumes the gate runs for the path in question.
- Middleware.Decide: a redirect is modelled by its path `/login`. The source builds an absolute URL on the request's origin.
- Sidebar.SidebarState.ClickLink: the navigation itself is done by the framework's `Link`. Only the drawer flag is modelled.
- Sidebar.SidebarState.ConfirmLogout: `localStorage` is a map and the router is a list of pushed paths. The confirmation flag is left as it is, because the source does not reset it.
- CampaignList.StatusStyleSeparates and CampaignList.StatusStyle: statuses are taken to be the backend's enum values. In JavaScript an object lookup also finds inherited property names (`constructor`, `toString`, `valueOf`, `hasOwnProperty`, `__proto__`), whose values are not strings and bypass the `??` default. That case is not modelled.
- Rendering: CSS classes are opaque strings; icons, animations, layout and the covering of the page by modal overlays are not modelled.
- CampaignModeration.ModerationPage.EditReason and GoBack have no precondition that the dialog is open. The source only renders them then.
- A failed approve or reject POST makes the handler's promise reject after its `finally`. Nothing observes that rejection, and the model only records the state that follows.
- Interleavings: `ModerationPage` allows one outstanding continuation at a time. The disabled and hidden buttons enforce the same in the source, but `GoBack` and `EditReason` may still run while a POST is outstanding.
- Credits are JavaScript numbers. They are modelled as unbounded integers, so floating-point rounding of very large or fractional credits is not captured.
- `progressPercent` is computed in floating point by the source. It is exact for the indices 0..4, so it is an integer here.
- Strings are sequences of Unicode scalar values rather than UTF-16 code units. This changes nothing for the exact and prefix comparisons used here.
- The campaign overview page's own fetch, its `loading` flag and the row click that opens a campaign's detail page are I/O and navigation, and are not modelled.
- Left out as I/O or markup with no local decisions: lib/api.ts, app/api/auth/set-cookie/route.ts, app/login/page.tsx, app/orders/page.tsx, components/Navbar.tsx, components/EmployeeLayout.tsx and app/dashboard/page.tsx.
