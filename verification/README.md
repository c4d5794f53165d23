# design2code in Dafny

design2code turns a design screenshot or a Figma frame into front-end code. Its core has two parts.

The first is the **project store**. It holds the project list, the user's plan and the plan's expiry date. Its state is the record `(projects, userPlan, planExpiryDate, isLoading, isInitialized)`, and the session status (`loading`, `authenticated`, `unauthenticated`) decides where data comes from. The remote projects API serves signed-in users. Guests get three local records instead: `design2code_projects`, `design2code_plan` and `design2code_expiry`.

The second part is a ring of small decision functions around the store:

- the Stripe webhook's billing updates;
- the credential fallback identity and the JWT/session claim defaults;
- the profile, notification and password routes;
- the Figma and generate routes' string parsing;
- the plan gating on the new-project, pricing and sidebar views;
- the project search;
- the onboarding tour;
- the live preview's framework classifier.

Every React effect and event handler is modelled as a pure transition on an immutable record. Every route is a pure function from its inputs to its reply, and the new user table where it writes one. These are all parameters:

- what the outside world answers: fetch results, database rows and lookups, the Stripe event and subscription, the parsed URL;
- the current time, in integer milliseconds;
- fresh ids;
- the date formatter.

One module per source file:

| module | file |
|---|---|
| `ProjectsContext` | `src/context/ProjectsContext.tsx` |
| `DashboardSidebar` | `src/components/DashboardSidebar.tsx` |
| `StripeWebhook` | `src/app/api/webhook/stripe/route.ts` |
| `Auth` | `src/lib/auth.ts` |
| `ProfileRoute`, `NotificationsRoute`, `PasswordRoute` | `src/app/api/user/*/route.ts` (`ApiCommon` holds their shared session and reply shapes) |
| `FigmaRoute` | `src/app/api/figma/route.ts` |
| `GenerateRoute` | `src/app/api/generate/route.ts` |
| `NewProjectPage` | `src/app/dashboard/new/page.tsx` |
| `PricingPage` | `src/app/dashboard/pricing/page.tsx` |
| `ProjectsPage` | `src/app/dashboard/projects/page.tsx` |
| `OnboardingTour` | `src/components/OnboardingTour.tsx` |
| `LivePreview` | `src/components/LivePreview.tsx` |

The shared modules are `Wrappers` (`Option`), `Seqs` (filter, subsequence, first index), `Text` and `Domain` (plans, languages, projects, and the "session plan, else store plan" rule).

`Text` gives JavaScript's string operations their JavaScript meaning:

- `trim` and `\s` use the full ECMAScript whitespace set;
- `indexOf` and `includes` find the leftmost occurrence;
- `replace` with a string pattern replaces only the first occurrence;
- `split(c)[0]` and `split(c)[1]` are modelled exactly;
- `toLowerCase` is modelled on ASCII letters.

Decisions taken where the code and its description differ (the code was followed):

- The pricing page's Starter tier has the button text "Current Plan" of its own. So its label reads "Current Plan" even when its button is enabled (`PricingPage.CurrentPlanLabelIff`).
- In `checkout.session.completed`, the webhook retrieves the subscription before it checks `metadata.userId`. A failed retrieval is therefore a 500 even without a user id.
- The Figma route parses the URL with `new URL` before it checks the file key. An unparsable URL is therefore a 500 even when no key matched.
- The profile route's checks test the e-mail for truthiness. An empty-string e-mail skips the format and uniqueness checks and is still written (`ProfileRoute.EmptyEmailEscapesUniqueness`).
- The Vue template capture is used with `||`. An empty `<template></template>` therefore gets the fallback template too.

## Model

| member | source | states |
|---|---|---|
| `Domain.PlanFromName` | src/context/ProjectsContext.tsx:92 | reading a stored plan string gives a plan whose name is that string, and a valid plan when the string is non-empty |
| `Domain.PlanNameRoundTrip` | src/context/ProjectsContext.tsx:92-115 | a valid plan written with `setItem` and read back is the same plan |
| `Domain.EffectivePlan` | src/components/DashboardSidebar.tsx:28 | the session user's plan wins when it is a non-empty string; otherwise the fallback plan is used |
| `ProjectsContext.SyncSessionPlan` | src/context/ProjectsContext.tsx:36-42 | with a session user, the plan becomes the session's plan, or `starter` when it has none; without one nothing changes; projects, expiry and flags never change |
| `ProjectsContext.Formatted` | src/context/ProjectsContext.tsx:54-63 | every fetched project keeps all its fields except `createdAt`, which is replaced by its formatted form, in the same order |
| `ProjectsContext.Load` | src/context/ProjectsContext.tsx:45-86 | nothing happens while the status is `loading`; otherwise the store ends loaded and initialized; an OK remote list (authenticated) or a parsable local record (guest) replaces the list; anything else keeps it |
| `ProjectsContext.ReadGuestPlan` | src/context/ProjectsContext.tsx:89-97 | only a guest reads the local plan and expiry; each is adopted only when present and non-empty |
| `ProjectsContext.Downgrade` | src/context/ProjectsContext.tsx:100-109 | the plan drops to `starter` with no expiry exactly when the store is a guest's, initialized, not starter, has an expiry and `now` is strictly after it; otherwise nothing changes; the check is idempotent |
| `ProjectsContext.Persist` | src/context/ProjectsContext.tsx:112-122 | an initialized guest store writes the whole list and the plan name, and writes or removes the expiry; otherwise the records are untouched |
| `ProjectsContext.AddProject` | src/context/ProjectsContext.tsx:124-165 | exactly one project is prepended and the rest keep their order; the server copy (with `createdAt` formatted) when an authenticated create gets an OK answer; otherwise a local project from the draft with the fresh id; the remote call is tried iff authenticated |
| `ProjectsContext.DeleteProject` | src/context/ProjectsContext.tsx:167-180 | whatever the server answers, no project with the id remains, every other project remains as many times as it occurred, and the result is a subsequence of the old list |
| `ProjectsContext.DeleteAbsentIsNoop` | src/context/ProjectsContext.tsx:172-179 | deleting an id no project has leaves the store unchanged |
| `ProjectsContext.DeleteIdempotent` | src/context/ProjectsContext.tsx:172-179 | deleting the same id twice is the same as once, whatever either server answer was |
| `ProjectsContext.SetUserPlan` | src/context/ProjectsContext.tsx:182-191 | the plan becomes the chosen tier; `pro` sets the expiry to now plus 30 days, `starter` clears it, `enterprise` leaves it as it was |
| `ProjectsContext.ExpiryCollapse` | src/context/ProjectsContext.tsx:100-109 | a guest who bought `pro` at time t is downgraded by a check at `now` exactly when `now` is past t plus 30 days |
| `ProjectsContext.AuthenticatedPlanNeverExpires` | src/context/ProjectsContext.tsx:101 | the downgrade check never touches a signed-in user's store |
| `ProjectsContext.StepKeepsInvariant` | src/context/ProjectsContext.tsx:36-191 | every event keeps the plan nameable and the project ids distinct, given fresh ids and repeat-free loaded lists |
| `ProjectsContext.RunKeepsInvariant` | src/context/ProjectsContext.tsx:36-191 | so does any sequence of such events |
| `ProjectsContext.CreatesNewestFirst` | src/context/ProjectsContext.tsx:152-164 | after a guest's creates the list holds the new projects newest first, followed by the old list |
| `ProjectsContext.GuestRoundTrip` | src/context/ProjectsContext.tsx:45-122 | what an initialized guest store persists is what a fresh store loads and reads back: the same projects, plan and expiry |
| `ProjectsContext.FallbackDivergesUntilReload` | src/context/ProjectsContext.tsx:124-165 | after a failed authenticated create the store shows a project under the fresh id that the next server load does not contain |
| `DashboardSidebar.DaysLeft` | src/components/DashboardSidebar.tsx:34-40 | 0 without an expiry; otherwise the smallest non-negative whole number of days that covers the time left |
| `DashboardSidebar.DaysLeftPast` | src/components/DashboardSidebar.tsx:38-39 | an expiry at or before now gives 0 days |
| `DashboardSidebar.DaysLeftWholeDays` | src/components/DashboardSidebar.tsx:38-39 | an expiry exactly k whole days ahead gives k |
| `DashboardSidebar.SidebarCard` | src/components/DashboardSidebar.tsx:28-129 | the upgrade card is shown exactly when the session-over-store plan is `starter`; otherwise the status card shows the days left |
| `StripeWebhook.HandleWebhook` | src/app/api/webhook/stripe/route.ts:13-68 | 400 and no write on a bad signature. Checkout: 500 when the retrieval fails, 400 without a user id, otherwise 200 exactly when the user exists (else 500), and that user becomes `pro` with the subscription id and its period end in ms. A paid invoice is 200 exactly when the retrieval succeeds and someone holds the subscription (else 500), and moves only the subscriber's expiry. A deleted subscription returns its holder to `starter` with no expiry and no subscription, and is a 500 when nobody holds it. Other events: 200 with no write. Only one row ever changes |
| `StripeWebhook.CancelReleasesSubscription` | src/app/api/webhook/stripe/route.ts:57-66 | after a cancellation, no user holds the cancelled subscription, if subscription ids were unique |
| `Auth.FallbackUserId` | src/lib/auth.ts:52 | the id is `dev-user-` followed by the e-mail with each character outside `[a-zA-Z0-9]` replaced by `-`; its length is 9 plus the e-mail's, and it holds only alphanumerics and `-` |
| `Auth.FallbackIdsAgree` | src/lib/auth.ts:52 | e-mails of equal length whose characters map to the same id characters get the same fallback id |
| `Auth.FallbackIdsCanCollide` | src/lib/auth.ts:52 | two different e-mails can get the same fallback id |
| `Auth.NameFromEmail` | src/lib/auth.ts:54 | the name is the e-mail's prefix before its first `@`, or the whole e-mail |
| `Auth.Authorize` | src/lib/auth.ts:37-91 | null exactly when the e-mail or password is missing; the fallback user (id, name, `starter`, `developer`) when the database is unavailable or anything throws; otherwise the found or newly created row |
| `Auth.Jwt` | src/lib/auth.ts:103-110 | without a user the token is unchanged; with one it takes the user's id, plan (default `starter`) and role (default `developer`) and keeps its other claims |
| `Auth.SessionFromToken` | src/lib/auth.ts:111-118 | a session user receives the token's id, plan and role and keeps its name, e-mail and image; a session without a user is unchanged |
| `Auth.FallbackSignInIsStarter` | src/lib/auth.ts:48-58 | a fallback sign-in leads to a session whose id is the fallback id, whose role is `developer` and whose plan every page reads as `starter` |
| `ApiCommon.ErrorText` | src/app/api/figma/route.ts:53 | a `catch` block replies with the exception's message when it is non-empty, otherwise with the route's fallback text |
| `ProfileRoute.EmailShapedIff` | src/app/api/user/profile/route.ts:21 | the executable e-mail check accepts exactly the strings of the form segment `@` segment `.` segment, each segment non-empty and free of whitespace and `@` |
| `ProfileRoute.Validate` | src/app/api/user/profile/route.ts:21-47 | the first failing check names the error: a badly formed truthy e-mail, then a truthy role outside designer/developer/admin, then a new e-mail another row already has; no error exactly when all three pass |
| `ProfileRoute.Update` | src/app/api/user/profile/route.ts:50-79 | the row holding the session e-mail gets exactly the defined fields of the body (null clears a field); id, plan and createdAt stay; no other row changes; no such row means 500 and no write |
| `ProfileRoute.PatchProfile` | src/app/api/user/profile/route.ts:8-79 | 401 without a signed-in e-mail, before the body is read; 500 on an unreadable body or a throw; then validation, then the update; no failure writes anything |
| `ProfileRoute.PatchKeepsEmailsUnique` | src/app/api/user/profile/route.ts:36-57 | a request whose e-mail is not the empty string keeps e-mails unique across users |
| `ProfileRoute.EmptyEmailEscapesUniqueness` | src/app/api/user/profile/route.ts:21-54 | an empty-string e-mail passes every check and is written, so in the model (which has no unique index on e-mail) two users can end up sharing the e-mail `""` |
| `NotificationsRoute.PatchNotifications` | src/app/api/user/notifications/route.ts:7-49 | 401 without a signed-in e-mail; 400 exactly when one of the three fields is not a boolean; otherwise success echoing exactly the three values; 500 on a throw |
| `PasswordRoute.OAuthMessage` | src/app/api/user/password/route.ts:32-35 | the message gives the providers joined by ", " in parentheses and again as the account to use, so it names every linked provider |
| `PasswordRoute.ChangePassword` | src/app/api/user/password/route.ts:7-58 | 401 without a signed-in e-mail; then, one iff per case: 404 for an unknown user, 400 with `isOAuthUser: true` naming the providers for linked accounts, 501 with `isOAuthUser: false` for none, 500 when the lookup throws |
| `FigmaRoute.KeyText` | src/app/api/figma/route.ts:13-14 | a file-key capture is the maximal, non-empty alphanumeric run right after `file/` or `design/` |
| `FigmaRoute.FileKey` | src/app/api/figma/route.ts:13-14 | a key exists exactly when the pattern matches somewhere, and then it is the capture of the leftmost match |
| `FigmaRoute.NodeId` | src/app/api/figma/route.ts:17 | the `node-id` value with its first `-` replaced by `:`, or empty without one |
| `FigmaRoute.RequestedNode` | src/app/api/figma/route.ts:24 | an empty node id becomes `0:0`; the node is never empty |
| `FigmaRoute.ImagesApiUrlKey` | src/app/api/figma/route.ts:24 | the file key can be read back from the images API URL as the text between the base and the first `?` |
| `FigmaRoute.PostFigma` | src/app/api/figma/route.ts:3-55 | 400 without URL or token; 500 on an unparsable URL; 400 without a file key; the images request carries the key, the node (default `0:0`) and the token; a failed images call passes its status through; 404 without an image for the node; otherwise a `data:` URI of the download, with mime defaulting to `image/png`; 500 on a throw |
| `GenerateRoute.MimeOf` | src/app/api/generate/route.ts:26 | the mime is the header text after the first `:` up to the next `:`, `;` or end; a header without `:` has none (the TypeError) |
| `GenerateRoute.SplitImage` | src/app/api/generate/route.ts:25-26 | input without a comma is the data itself with `image/png`; otherwise the data is the text between the first and second comma and the mime is read from the header; it fails exactly when the header lacks `:` |
| `GenerateRoute.FigmaImageRoundTrip` | src/app/api/generate/route.ts:25-26 | the `data:` URI the Figma route builds is split back into its payload and mime |
| `GenerateRoute.CleanFences` | src/app/api/generate/route.ts:49 | the result is the answer minus a leading fence line at the very start and a trailing fence at the very end; an answer with neither is unchanged |
| `GenerateRoute.CleanFencedBlock` | src/app/api/generate/route.ts:49 | a fenced block with a word-character language tag is cleaned to exactly its body |
| `GenerateRoute.Prompt` | src/app/api/generate/route.ts:28-33 | the prompt contains the language and the description |
| `GenerateRoute.PostGenerate` | src/app/api/generate/route.ts:6-58 | 500 without an API key and before any model call; the model is called exactly when the body is readable, the key set and the image splits; the call carries the split image and the prompt; the reply is the fence-cleaned text, or 500 with the error text |
| `NewProjectPage.IsPro` | src/app/dashboard/new/page.tsx:50-51 | holds exactly when the session-over-store plan is `pro` or `enterprise` |
| `NewProjectPage.ImageSource` | src/app/dashboard/new/page.tsx:141 | the fetched image when there is one, otherwise the uploaded file's data URL |
| `NewProjectPage.HandleGenerate` | src/app/dashboard/new/page.tsx:127-157 | nothing happens without a design source or with a blank name; a non-pro user on React or Vue is sent to pricing; a request is sent exactly when neither applies, with the image, the language and the description, and the page starts generating with no code |
| `NewProjectPage.FinishGenerate` | src/app/dashboard/new/page.tsx:159-171 | generation always stops; received code is shown; any failure raises a non-empty alert, the route's error when it gave one |
| `NewProjectPage.SelectLanguage` | src/app/dashboard/new/page.tsx:234-242 | a pro-only option redirects a non-pro user and changes nothing; any other choice selects the option and closes the menu; no other field changes |
| `NewProjectPage.NonProSelections` | src/app/dashboard/new/page.tsx:227-242 | whatever a non-pro user clicks in the menu, the language stays as it was or becomes HTML |
| `NewProjectPage.HandleSave` | src/app/dashboard/new/page.tsx:174-185 | a draft is saved exactly when there is generated code and a non-blank name; it carries the name, code, language and "Generated from" the file name or "screenshot" |
| `NewProjectPage.GuestSaveHeadsStore` | src/app/dashboard/new/page.tsx:174-185 | a guest's save puts the new project at the head of the store without a remote call |
| `NewProjectPage.Filename` | src/app/dashboard/new/page.tsx:372-374 | React gives `GeneratedComponent.tsx`, Vue `GeneratedComponent.vue`, HTML `index.html` |
| `NewProjectPage.FilenameInjective` | src/app/dashboard/new/page.tsx:372-374 | different languages get different file names |
| `NewProjectPage.SwitchTab` | src/app/dashboard/new/page.tsx:288-291 | switching the tab clears both the file and the fetched image and changes nothing else |
| `NewProjectPage.SwitchTabBlocksGenerate` | src/app/dashboard/new/page.tsx:128-291 | right after a tab switch, generate does nothing |
| `PricingPage.CurrentPlan` | src/app/dashboard/pricing/page.tsx:64 | the session plan when present, else the store's plan |
| `PricingPage.HandleUpgradeClick` | src/app/dashboard/pricing/page.tsx:66-76 | enterprise never opens checkout; the current plan's tier is a no-op; any other tier opens checkout with that tier |
| `PricingPage.ApplyClick` | src/app/dashboard/pricing/page.tsx:60-76 | only a checkout click changes the page: it selects the tier and opens the modal |
| `PricingPage.ButtonLabel` | src/app/dashboard/pricing/page.tsx:147 | a disabled button reads "Current Plan"; any other shows the tier's own text |
| `PricingPage.CurrentPlanLabelIff` | src/app/dashboard/pricing/page.tsx:11-147 | a tier's button reads "Current Plan" exactly when it is disabled or is the Starter tier |
| `PricingPage.DisabledIffNoOp` | src/app/dashboard/pricing/page.tsx:66-139 | a button is disabled exactly when clicking it would do nothing |
| `PricingPage.AtMostOneDisabled` | src/app/dashboard/pricing/page.tsx:11-139 | at most one of the three buttons is disabled |
| `PricingPage.CheckoutTiers` | src/app/dashboard/pricing/page.tsx:11-76 | only the Starter and Pro tiers can open checkout, and only when they are not the current plan |
| `ProjectsPage.ProjectsView` | src/app/dashboard/projects/page.tsx:12-24 | nothing while loading; otherwise every kept project matches the term case-insensitively by name or description, every matching project is kept as many times as it occurs, and the list is a subsequence of the store's |
| `ProjectsPage.EmptyTermKeepsAll` | src/app/dashboard/projects/page.tsx:21-24 | an empty search keeps every project, in order |
| `ProjectsPage.SearchIgnoresTermCase` | src/app/dashboard/projects/page.tsx:21-24 | the term and its lower-case form give the same list |
| `OnboardingTour.Mount` | src/components/OnboardingTour.tsx:42-43 | the tour starts at step -1 with no rectangle |
| `OnboardingTour.Start` | src/components/OnboardingTour.tsx:45-52 | the tour moves to step 0 only when the seen flag is absent |
| `OnboardingTour.Next` | src/components/OnboardingTour.tsx:67-73 | Next advances below the last step and completes the tour at it |
| `OnboardingTour.Back` | src/components/OnboardingTour.tsx:75-79 | Back steps back only above step 0 |
| `OnboardingTour.Complete` | src/components/OnboardingTour.tsx:81-84 | completing sets the seen flag and returns to step -1 |
| `OnboardingTour.Track` | src/components/OnboardingTour.tsx:54-65 | the step effect measures a present target, keeps the old rectangle when the target is missing, and clears it outside the steps |
| `OnboardingTour.Shown` | src/components/OnboardingTour.tsx:86-88 | nothing renders at -1 or without a rectangle; otherwise the current step renders at the last measured rectangle |
| `OnboardingTour.ShownAnchor` | src/components/OnboardingTour.tsx:54-88 | a rendered step sits at an element on the page, and an open step whose target is present renders at that target |
| `OnboardingTour.MissingTargetKeepsOldAnchor` | src/components/OnboardingTour.tsx:54-88 | with only the first target present, the second step still renders, at the first step's element |
| `OnboardingTour.RunKeepsTracked` | src/components/OnboardingTour.tsx:14-84 | any sequence of events keeps the step within -1 to 3 and the rectangle consistent with the step and the page |
| `OnboardingTour.CompletedTourStaysClosed` | src/components/OnboardingTour.tsx:45-86 | a seen tour at -1 stays exactly as it is under every event a user can trigger |
| `OnboardingTour.NextWalksTheSteps` | src/components/OnboardingTour.tsx:67-84 | from step 0, k Next clicks reach step k, and four clicks complete the tour |
| `OnboardingTour.RunAppend` | src/components/OnboardingTour.tsx:67-84 | running two event sequences one after the other is running their concatenation |
| `LivePreview.Classify` | src/components/LivePreview.tsx:23-34 | empty code writes nothing; React markers win over Vue markers; code with neither is HTML |
| `LivePreview.RemoveExportDefault` | src/components/LivePreview.tsx:38 | only the leftmost `export` whitespace `default` whitespace match is cut, with its whole whitespace runs; code without one is unchanged |
| `LivePreview.VueTemplate` | src/components/LivePreview.tsx:87 | when the first `<template>` has a `</template>` after it, the text between them, or the error template when that text is empty; the error template when there is no such block; never empty |
| `LivePreview.HtmlPage` | src/components/LivePreview.tsx:97-109 | code containing `<html` is emitted verbatim; anything else is placed inside the page's `<body>` |
| `LivePreview.HtmlPageIdempotent` | src/components/LivePreview.tsx:97-109 | wrapping a wrapped page changes nothing |
| `LivePreview.Preview` | src/components/LivePreview.tsx:22-109 | the document kind follows the classification, and each kind carries its script, template or page |

## Left out

- I/O: fetch, localStorage, Prisma, the Stripe SDK, `getServerSession`, sign-in and sign-out, `window.alert`, `router.push` and `window.location`. Their answers are inputs, and the model says which request or redirect is made.
- React scheduling: effects run in order, and the interleaving of concurrent `addProject`/`deleteProject` calls is not modelled. Each event is one atomic transition.
- Timers: the tour's one-second delay and the settings page timers. The tour's start is a single `StartTimer` event.
- Date handling: `toLocaleDateString` is the `format` parameter. `new Date()` is an integer `now` in milliseconds. `crypto.randomUUID` is the `freshId` parameter.
- `ProjectsContext.SetUserPlan`: "30 days" is 30 × 86 400 000 ms; `setDate` across a daylight-saving change is not modelled.
- An unparsable stored expiry string (an Invalid Date, which never downgrades and shows NaN days) is not modelled. Expiries are integers.
- A non-array or non-project JSON value in `design2code_projects` is not modelled: the record either parses as a project list or it does not.
- The refinement rewriting in `src/app/dashboard/new/page.tsx:53-125` is not modelled. It is a simulated AI built on global regex replacement and `parseInt`.
- `LivePreview.Preview`: the import-stripping regex (`src/components/LivePreview.tsx:37`) is the `stripImports` parameter. The React and Vue page scaffolding around the script and template is not modelled.
- The `!doc` iframe check is not modelled.
- `OnboardingTour.Shown`: `targetRect` is modelled as the id of the element it was measured from. The rectangle's geometry, the tooltip position and `scrollIntoView` are not modelled. A step change and its effect are one transition, so the render in between (which also uses the previous rectangle) is not a separate state.
- The sidebar's progress bar (floating point) is not modelled.
- `Text.ToLower`: only ASCII letters are lower-cased. JavaScript's full Unicode case mapping is not modelled, so `ProjectsPage.ProjectsView` matches non-ASCII letters case-sensitively.
- Strings are sequences of Unicode scalar values. A character outside the Basic Multilingual Plane is one character here, where JavaScript counts two UTF-16 code units.
- `Auth.FallbackUserId`: a character outside the Basic Multilingual Plane becomes one `-` here, where the source's regex (no `u` flag) writes two. Its length clause counts scalar values, not JavaScript's `.length`.
- `FigmaRoute.PostFigma`: `new URL` parsing and percent-decoding of `node-id` are the `url` input. Reading the download as base64 is the `download` input.
- `GenerateRoute.PostGenerate`: the runtime TypeError message for a header without `:` is the `typeErrorMessage` parameter. The model call is the `model` input.
- The JSON body fields are modelled with the types the routes read: a non-string `figmaUrl`, `imageBase64`, `email` or `role` is not modelled.
- `ProfileRoute.Update`: the database's unique index on e-mail is not modelled, so a write that index would refuse is modelled as succeeding.
- `ProfileRoute.EmptyEmailEscapesUniqueness`: the shared `""` e-mail holds only in the model. In the deployed program the unique index on `email` refuses the second write, and the route answers 500.
- `NewProjectPage.ImageSource`: `readAsDataURL` is modelled as always producing the file's data URL; a reader error is not modelled.
- UI-only files, thin wrappers and static data (landing, login, signup, settings, profile and snippet pages; the screenshot, checkout and projects API routes; `mockHistory`; type declarations) are not part of this model.
