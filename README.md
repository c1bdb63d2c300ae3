# StackSolutions site logic in Dafny

StackSolutions is a Next.js marketing site for a software agency. Apart from its
pages of fixed text, it holds a small amount of real logic:

- a project cost estimator and an ROI calculator;
- a testimonial carousel;
- a cookie consent banner that persists the visitor's choice;
- a data preloader with a 24-hour local cache;
- three forms with schema validation and submit status (consultation booking, contact component, contact page);
- the consultation booking's list of bookable business days;
- the header's active-link and menu state;
- the blog's featured/recent split and author initials;
- the resource center's category filter, download flag and type badges;
- the mobile viewport rewrite that forces `maximum-scale=1.0`.

This project models each of these pieces and proves what they promise:

- Pure computations (tables, filters, the estimate, the ROI figures, validation, string rewrites) are datatypes and functions with lemmas.
- Component state that event handlers update (carousel, consent banner, header, form status, resource center, estimator, preloader) is a class whose methods carry `modifies` clauses and state the whole new state.
- The one loop in the core, the available-dates loop, is a method with loop invariants, proved against a reference count of business days.

One module per source file:

| module | file |
|---|---|
| `ProjectCalculator` | `project_calculator.dfy` |
| `ROICalculator` | `roi_calculator.dfy` |
| `Testimonials` | `testimonials.dfy` |
| `CookieConsent` | `cookie_consent.dfy` |
| `DataPreloader` | `data_preloader.dfy` |
| `ConsultationBooking` | `consultation_booking.dfy` |
| `ContactForm` | `contact_form.dfy` |
| `ContactPage` | `contact_page.dfy` |
| `Header` | `header.dfy` |
| `BlogSection` | `blog_section.dfy` |
| `ResourceCenter` | `resource_center.dfy` |
| `MobileOptimization` | `mobile_optimization.dfy` |

Two modules are shared:

- `FormSubmit` (`form_submit.dfy`) holds the submit/status/reset protocol that all three forms use.
- `Wrappers` holds `Option`.

Inputs that come from outside the code are parameters:

- the clock (`now`, `today`);
- whether `window` exists;
- whether a simulated request fails;
- the scroll offset and the router path;
- the form library's email check (`isEmail`).

## Model

| member | source | states |
|---|---|---|
| ProjectCalculator.FindType | src/components/ProjectCalculator.tsx:55 | a type is found exactly when some table entry has the id, and the entry found has that id |
| ProjectCalculator.FindComplexity | src/components/ProjectCalculator.tsx:56 | a complexity level is found exactly when some table entry has the id, and the entry found has that id |
| ProjectCalculator.SelectedFeatures | src/components/ProjectCalculator.tsx:69 | the selected features are exactly the table entries whose id is in the selection |
| ProjectCalculator.ConfidenceFor | src/components/ProjectCalculator.tsx:83-89 | low iff the type is "ai" or more than 5 features are chosen; medium iff not low and (more than 3 features or enterprise complexity); high otherwise |
| ProjectCalculator.Estimate | src/components/ProjectCalculator.tsx:54-91 | an estimate exists exactly when both ids resolve in their tables; its confidence follows the rule above, counting the raw selection length |
| ProjectCalculator.MultipliersAtLeastOne | src/components/ProjectCalculator.tsx:21-34 | every type and complexity multiplier is at least 1 |
| ProjectCalculator.RoundMonotone | src/components/ProjectCalculator.tsx:77-80 | rounding preserves order |
| ProjectCalculator.ToggleFeature | src/components/ProjectCalculator.tsx:94-101 | a selected id is removed (every copy), an unselected one is appended at the end, other ids keep their membership, and a selection without duplicates stays without duplicates |
| ProjectCalculator.RemoveAll | src/components/ProjectCalculator.tsx:98 | the id is gone, every other id keeps its membership, no duplicates are introduced |
| ProjectCalculator.ToggleTwiceRestoresMembership | src/components/ProjectCalculator.tsx:94-101 | toggling an id twice restores which ids are selected |
| ProjectCalculator.SelectionMonotone | src/components/ProjectCalculator.tsx:69-71 | a larger selection never gives a smaller feature cost or feature duration |
| ProjectCalculator.SelectionDependsOnlyOnMembership | src/components/ProjectCalculator.tsx:69 | order and duplicates in the selection do not change the selected features |
| ProjectCalculator.UnknownIdIgnored | src/components/ProjectCalculator.tsx:69 | an id that is not in the table adds nothing |
| ProjectCalculator.RangeOrdered | src/components/ProjectCalculator.tsx:77-80 | for a non-negative total, 0 <= round(80%) <= round(120%) |
| ProjectCalculator.EstimateRangesOrdered | src/components/ProjectCalculator.tsx:77-80 | every estimate has 0 <= minCost <= maxCost and 0 <= minWeeks <= maxWeeks |
| ProjectCalculator.EstimateForOrdered | src/components/ProjectCalculator.tsx:61-80 | with multipliers of at least 1, both ranges are ordered and non-negative |
| ProjectCalculator.TotalsRangesOrdered | src/components/ProjectCalculator.tsx:61-80 | the cost and week ranges built from the totals are ordered and non-negative |
| ProjectCalculator.AddingFeatureNeverLowersEstimate | src/components/ProjectCalculator.tsx:69-80 | appending any id keeps the estimate defined and never lowers any of the four bounds |
| ProjectCalculator.MoreIdsNeverLowerEstimate | src/components/ProjectCalculator.tsx:69-80 | a selection that contains another never gives lower bounds |
| ProjectCalculator.ConfidenceNeverRisesWithMoreFeatures | src/components/ProjectCalculator.tsx:83-89 | more selected features never give a higher confidence |
| ProjectCalculator.WebSimpleNoFeatures | src/components/ProjectCalculator.tsx:21-91 | web/simple with no features is 12000-18000 over 5-7 weeks, high confidence |
| ProjectCalculator.WebSimpleTotals | src/components/ProjectCalculator.tsx:61-91 | the same figures from the resolved table entries |
| ProjectCalculator.AiEnterpriseWithAuth | src/components/ProjectCalculator.tsx:21-91 | ai/enterprise with authentication is 66400-99600 over 27-40 weeks, low confidence |
| ProjectCalculator.AiEnterpriseTotals | src/components/ProjectCalculator.tsx:61-91 | the same figures from the resolved table entries |
| ProjectCalculator.AiLookup | src/components/ProjectCalculator.tsx:21-27 | "ai" resolves to the fourth type |
| ProjectCalculator.EnterpriseLookup | src/components/ProjectCalculator.tsx:29-34 | "enterprise" resolves to the fourth complexity level |
| ProjectCalculator.AuthOnlySelectsAuth | src/components/ProjectCalculator.tsx:36-43 | selecting "auth" selects exactly the authentication feature |
| ProjectCalculator.NothingSelected | src/components/ProjectCalculator.tsx:69 | a selection naming no table id selects nothing |
| ProjectCalculator.ComputeTotals | src/components/ProjectCalculator.tsx:61-74 | the step-by-step totals equal base × type multiplier × complexity multiplier plus the selected features' sums |
| ProjectCalculator.ComputeEstimate | src/components/ProjectCalculator.tsx:61-91 | the imperative calculation produces exactly the specified estimate |
| ProjectCalculator.Calculator.constructor | src/components/ProjectCalculator.tsx:46-52 | nothing chosen and no estimate |
| ProjectCalculator.Calculator.ShowsEstimate | src/components/ProjectCalculator.tsx:221 | the result panel shows exactly when an estimate exists and both a type and a complexity are chosen, and the ranges it shows are ordered (every handler keeps that invariant) |
| ProjectCalculator.Calculator.CalculateEstimate | src/components/ProjectCalculator.tsx:54-91 | the estimate becomes the computed one when both ids resolve, otherwise it is left as it was |
| ProjectCalculator.Calculator.RecomputeIfReady | src/components/ProjectCalculator.tsx:113-117 | the estimate is recomputed only when type and complexity are both chosen |
| ProjectCalculator.Calculator.SelectProjectType | src/components/ProjectCalculator.tsx:144 | only the type changes in the selection, and the estimate follows the recompute rule |
| ProjectCalculator.Calculator.SelectComplexity | src/components/ProjectCalculator.tsx:173 | only the complexity changes in the selection, and the estimate follows the recompute rule |
| ProjectCalculator.Calculator.HandleFeatureToggle | src/components/ProjectCalculator.tsx:94-117 | the features become the toggled list, and the estimate follows the recompute rule |
| ROICalculator.TableEntriesPositive | src/components/ROICalculator.tsx:23-29 | every project type improves efficiency and revenue (multipliers above 1) and has a positive cost |
| ROICalculator.SelectableTypesAreTableKeys | src/components/ROICalculator.tsx:190-194 | the select offers exactly the table's project types |
| ROICalculator.CalculateROI | src/components/ROICalculator.tsx:48-74 | results exist exactly for a known project type and are the formulas applied to its multipliers |
| ROICalculator.BenefitsNonNegative | src/components/ROICalculator.tsx:51-64 | non-negative inputs give non-negative inefficiency cost, savings, revenue increase and total benefit |
| ROICalculator.RoiPositiveIffBenefitExceedsCost | src/components/ROICalculator.tsx:64-65 | the ROI is positive exactly when the total benefit exceeds the project cost |
| ROICalculator.ZeroBenefitNeverPaysBack | src/components/ROICalculator.tsx:66 | with no benefit the payback period is infinite |
| ROICalculator.PaybackRecoversCost | src/components/ROICalculator.tsx:66 | payback months × monthly benefit equals the project cost |
| ROICalculator.PaybackWithinYearIffPositiveRoi | src/components/ROICalculator.tsx:65-66 | payback falls strictly between 0 and 12 months exactly when the ROI is positive |
| ROICalculator.PaybackBelowYear | src/components/ROICalculator.tsx:66 | cost / (benefit / 12) lies in (0, 12) exactly when the benefit exceeds the cost |
| ROICalculator.PaybackNeverNegative | src/components/ROICalculator.tsx:66 | with non-negative inputs, a finite payback period is positive |
| ROICalculator.DefaultScenario | src/components/ROICalculator.tsx:32-74 | the default inputs give 780000 inefficiency cost, 156000 savings, 150000 revenue increase, 1124% ROI and 300000/306000 months payback |
| Testimonials.NextIndex | src/components/TestimonialsSection.tsx:97-100 | the next index stays in range, adding one or wrapping from the last index to 0 |
| Testimonials.PrevIndex | src/components/TestimonialsSection.tsx:102-105 | the previous index stays in range, subtracting one or wrapping from 0 to the last index |
| Testimonials.PrevUndoesNext | src/components/TestimonialsSection.tsx:97-105 | previous after next returns to the same testimonial |
| Testimonials.NextUndoesPrev | src/components/TestimonialsSection.tsx:97-105 | next after previous returns to the same testimonial |
| Testimonials.Advance | src/components/TestimonialsSection.tsx:87-95 | any number of auto-advance ticks stays in range |
| Testimonials.AdvanceWithoutWrap | src/components/TestimonialsSection.tsx:87-95 | ticks that do not reach the end just add to the index |
| Testimonials.AdvanceCompose | src/components/TestimonialsSection.tsx:87-95 | a ticks then b ticks equal a + b ticks |
| Testimonials.FullCycleReturns | src/components/TestimonialsSection.tsx:87-95 | as many ticks as there are testimonials return to the start |
| Testimonials.StarsFrom | src/components/TestimonialsSection.tsx:112-120 | star i onwards: star j is filled exactly when j is below the rating |
| Testimonials.RenderStars | src/components/TestimonialsSection.tsx:112-120 | five stars, star i filled exactly when i < rating |
| Testimonials.FilledStarsMatchRating | src/components/TestimonialsSection.tsx:112-120 | the number of filled stars is the rating clamped to 0..5 |
| Testimonials.FilledFrom | src/components/TestimonialsSection.tsx:112-120 | the filled count from star i onwards is the rating minus i, clamped |
| Testimonials.Carousel.constructor | src/components/TestimonialsSection.tsx:83-84 | starts at the first testimonial with auto-play on |
| Testimonials.Carousel.Current | src/components/TestimonialsSection.tsx:19-83 | the shown testimonial is one of the data entries |
| Testimonials.Carousel.Tick | src/components/TestimonialsSection.tsx:87-95 | an interval tick advances only while auto-playing and never changes auto-play |
| Testimonials.Carousel.Next | src/components/TestimonialsSection.tsx:97-100 | moves to the next index and stops auto-play |
| Testimonials.Carousel.Prev | src/components/TestimonialsSection.tsx:102-105 | moves to the previous index and stops auto-play |
| Testimonials.Carousel.GoTo | src/components/TestimonialsSection.tsx:107-110 | a dot jumps to its index and stops auto-play |
| CookieConsent.TogglePreference | src/components/CookieConsent.tsx:58-64 | essential never changes, the chosen category flips, all others stay |
| CookieConsent.ToggleTwiceRestores | src/components/CookieConsent.tsx:58-64 | flipping a category twice restores the preferences |
| CookieConsent.ToggleKeepsEssential | src/components/CookieConsent.tsx:11-64 | essential cookies stay enabled under any toggle |
| CookieConsent.ConsentBanner.constructor | src/components/CookieConsent.tsx:9-16 | essential-only preferences, banner and settings hidden |
| CookieConsent.ConsentBanner.View | src/components/CookieConsent.tsx:66 | nothing is rendered exactly when the banner is hidden; the settings panel shows exactly when both flags are set |
| CookieConsent.ConsentBanner.Mount | src/components/CookieConsent.tsx:18-24 | the banner appears exactly when no consent is stored |
| CookieConsent.ConsentBanner.AcceptAll | src/components/CookieConsent.tsx:26-37 | everything is enabled, stored under "cookie-consent", and both panels close |
| CookieConsent.ConsentBanner.RejectAll | src/components/CookieConsent.tsx:39-50 | only essential cookies stay, that is stored, and both panels close |
| CookieConsent.ConsentBanner.SavePreferences | src/components/CookieConsent.tsx:52-56 | the current preferences are stored unchanged, with essential on, and both panels close |
| CookieConsent.ConsentBanner.OpenSettings | src/components/CookieConsent.tsx:96 | the settings panel opens |
| CookieConsent.ConsentBanner.CloseSettings | src/components/CookieConsent.tsx:122 | the settings panel closes |
| CookieConsent.ConsentBanner.HandlePreferenceChange | src/components/CookieConsent.tsx:58-64 | the preferences become the toggled ones |
| DataPreloader.CachedValue | src/lib/dataPreloader.ts:143-165 | a hit exactly when a window exists, the key is stored and the entry is younger than 24 hours; a hit returns the stored data |
| DataPreloader.StorageAfterLookup | src/lib/dataPreloader.ts:154-160 | an expired entry is removed, a lookup never changes its own answer, other keys are untouched |
| DataPreloader.StoredDataHitsWithinExpiry | src/lib/dataPreloader.ts:143-179 | data written at t is returned for every lookup before t + 86400000 ms |
| DataPreloader.StoredDataExpires | src/lib/dataPreloader.ts:143-165 | from t + 86400000 ms on it misses and is removed |
| DataPreloader.ClearedStorageMisses | src/lib/dataPreloader.ts:182-185 | after clearing, every lookup misses |
| DataPreloader.LookupIsStable | src/lib/dataPreloader.ts:143-165 | repeating a lookup at the same time gives the same answer |
| DataPreloader.Preloader.constructor | src/lib/dataPreloader.ts:73-77 | the instance sees the given storage and window |
| DataPreloader.Preloader.GetCachedData | src/lib/dataPreloader.ts:143-165 | returns the cached value and leaves storage as the lookup specifies |
| DataPreloader.Preloader.SetCachedData | src/lib/dataPreloader.ts:167-179 | with a window, writes the data stamped with the current time; without one, nothing changes |
| DataPreloader.Preloader.ClearCache | src/lib/dataPreloader.ts:182-185 | with a window, removes only the cache key |
| DataPreloader.Preloader.PreloadAllData | src/lib/dataPreloader.ts:86-118 | a cache hit is returned untouched; otherwise the fetched data (the mock payload) is returned and cached, or on failure returned without caching |
| DataPreloader.Registry.GetInstance | src/lib/dataPreloader.ts:78-83 | the first call creates the instance, later calls return the same one |
| DataPreloader.SameInstance | src/lib/dataPreloader.ts:78-83 | two calls return the same object |
| FormSubmit.SubmitState.constructor | src/components/ConsultationBooking.tsx:56-67 | fields at their defaults, not submitting, status idle |
| FormSubmit.SubmitState.Edit | src/components/ConsultationBooking.tsx:59-67 | the fields take the typed values |
| FormSubmit.SubmitState.Start | src/components/ConsultationBooking.tsx:72-73 | submitting, status reset to idle |
| FormSubmit.SubmitState.Finish | src/components/ContactForm.tsx:42-61 | success resets the fields and calls onSuccess when given; failure keeps the fields with status error; submitting ends either way |
| FormSubmit.SubmitState.Submit | src/components/ContactForm.tsx:42-61 | an invalid form changes nothing; a valid one runs the whole start-and-finish protocol |
| ConsultationBooking.GetAvailableDates | src/components/ConsultationBooking.tsx:92-114 | exactly the weekdays among the next 30 days, in increasing order; their number is the reference business-day count, 20 to 22 |
| ConsultationBooking.NextWeekday | src/components/ConsultationBooking.tsx:98-101 | the weekday advances by one, wrapping from Saturday to Sunday |
| ConsultationBooking.WeekHasFiveBusinessDays | src/components/ConsultationBooking.tsx:101 | any 7 consecutive days hold exactly 5 business days |
| ConsultationBooking.WindowHoldsTwentyToTwentyTwo | src/components/ConsultationBooking.tsx:96-101 | the 30-day window holds 20 to 22 business days whatever today is |
| ConsultationBooking.ValidBookingIffRules | src/components/ConsultationBooking.tsx:11-22 | a booking is valid iff: name of 2+ characters, valid email, phone of 10+ characters, project type, budget, date and time chosen, and a meeting type from the list |
| ConsultationBooking.OptionalFieldsIgnored | src/components/ConsultationBooking.tsx:11-22 | company and message never affect validity |
| ConsultationBooking.EmptyBookingRejected | src/components/ConsultationBooking.tsx:11-22 | an untouched form is rejected on every required field except possibly email |
| ConsultationBooking.HandleSubmit | src/components/ConsultationBooking.tsx:71-89 | an invalid booking changes nothing; a valid one ends with success and reset, or error with the fields kept; the booking form has no success callback, so none is called |
| ContactForm.ValidContactIffRules | src/components/ContactForm.tsx:11-21 | valid iff: both names of 2+ characters, valid email, project type and budget chosen, description of 20+ characters |
| ContactForm.OptionalFieldsIgnored | src/components/ContactForm.tsx:11-21 | phone, timeline and company never affect validity |
| ContactForm.PlaceholderOptionRejected | src/components/ContactForm.tsx:11-21 | a select left on its "" option is an error on that field |
| ContactForm.EmptyContactRejected | src/components/ContactForm.tsx:11-21 | an untouched form is rejected on every rule except possibly email |
| ContactForm.HandleSubmit | src/components/ContactForm.tsx:25-61 | an invalid form changes nothing; success resets the form and calls onSuccess once if given; failure keeps the fields |
| ContactPage.ValidPageFormIffRules | src/app/contact/page.tsx:48-56 | valid iff: both names of 2+ characters, valid email, project type and budget chosen, description of 10+ characters |
| ContactPage.PhoneIgnored | src/app/contact/page.tsx:48-56 | the phone never affects validity |
| ContactPage.PlaceholderOptionRejected | src/app/contact/page.tsx:48-56 | a select on its "" option fails |
| ContactPage.ComponentStricterThanPage | src/app/contact/page.tsx:48-56 | whatever the contact component accepts, the page accepts |
| ContactPage.MidLengthDescriptionSplitsTheForms | src/app/contact/page.tsx:55 | a description of 10-19 characters passes the page's rule but fails the component |
| ContactPage.HandleSubmit | src/app/contact/page.tsx:73-89 | an invalid form changes nothing; success resets, failure keeps the fields; no callback runs |
| Header.IsActive | src/components/Header.tsx:40-43 | "/" is active only on "/"; any other href is active on every path starting with it |
| Header.ActiveOnExtensions | src/components/Header.tsx:40-43 | a non-root entry is active on its own path and every extension of it |
| Header.AboutActiveOnAboutUs | src/components/Header.tsx:40-43 | "/about" is also highlighted on "/aboutus" |
| Header.NonRootHrefsIncomparable | src/components/Header.tsx:9-24 | no non-root href is a prefix of another |
| Header.AtMostOneActive | src/components/Header.tsx:9-43 | whatever the path, at most one navigation entry is active |
| Header.HeaderState.constructor | src/components/Header.tsx:27-29 | menu closed, not scrolled, no dropdown |
| Header.HeaderState.ShowsDropdown | src/components/Header.tsx:82 | a dropdown shows exactly when its name is the active one |
| Header.HeaderState.HandleScroll | src/components/Header.tsx:32-38 | scrolled exactly when the offset exceeds 10 |
| Header.HeaderState.ToggleMenu | src/components/Header.tsx:138 | the menu button flips the menu |
| Header.HeaderState.CloseMenu | src/components/Header.tsx:161 | every mobile menu link (lines 161, 175, 191, 199, 207) closes the menu |
| Header.HeaderState.MouseEnter | src/components/Header.tsx:69 | that entry's dropdown opens and no other |
| Header.HeaderState.MouseLeave | src/components/Header.tsx:70 | no dropdown stays open |
| BlogSection.FeaturedMembers | src/components/BlogSection.tsx:91 | the featured list holds exactly the featured posts |
| BlogSection.NonFeaturedMembers | src/components/BlogSection.tsx:92 | the non-featured list holds exactly the other posts |
| BlogSection.FeaturedKeepsOrder | src/components/BlogSection.tsx:91 | the featured filter keeps source order |
| BlogSection.NonFeaturedKeepsOrder | src/components/BlogSection.tsx:92 | the non-featured filter keeps source order |
| BlogSection.FiltersPartition | src/components/BlogSection.tsx:91-92 | every post is in exactly one of the two filters |
| BlogSection.RecentPosts | src/components/BlogSection.tsx:92 | exactly the first min(3, n) of the n non-featured posts, in order |
| BlogSection.FeaturedAndRecentDisjoint | src/components/BlogSection.tsx:91-92 | no post appears in both lists |
| BlogSection.FeaturedFirst | src/components/BlogSection.tsx:91-92 | when the first k posts are exactly the featured ones, the filters cut the list at k |
| BlogSection.ShippedPostsSplitThreeAndThree | src/components/BlogSection.tsx:7-92 | with the shipped posts, the first 3 are featured and the last 3 are recent |
| BlogSection.TagsShown | src/components/BlogSection.tsx:165 | exactly the first min(3, n) of the post's n tags, in order |
| BlogSection.Split | src/components/BlogSection.tsx:176 | splitting on ' ' gives at least one part, none containing a space |
| BlogSection.JoinSplit | src/components/BlogSection.tsx:176 | joining the parts with ' ' gives back the name |
| BlogSection.Initials | src/components/BlogSection.tsx:176 | one initial per non-empty part of the name, the k-th being the first character of the k-th non-empty part; never a space |
| BlogSection.FirstLettersAreHeads | src/components/BlogSection.tsx:176 | `map(n => n[0]).join('')` keeps the first character of each non-empty part, in order, and drops empty parts |
| BlogSection.InitialsInName | src/components/BlogSection.tsx:176 | the first letters of the parts are non-space characters of the name |
| BlogSection.SplitWord | src/components/BlogSection.tsx:176 | a word without spaces splits into itself |
| BlogSection.SplitWordThenSpace | src/components/BlogSection.tsx:176 | a word, a space and more text split into the word then the rest's parts |
| BlogSection.SplitJoin | src/components/BlogSection.tsx:176 | splitting words joined by single spaces gives the words back |
| BlogSection.InitialsOfWords | src/components/BlogSection.tsx:176 | a name of non-empty words separated by single spaces gets the first letter of each word, in order |
| BlogSection.AlexJohnsonInitials | src/components/BlogSection.tsx:176 | "Alex Johnson" is shown as "AJ" |
| ResourceCenter.FilteredResources | src/components/ResourceCenter.tsx:113-115 | "All" gives the list unchanged; any other category gives that category's filter |
| ResourceCenter.InCategoryMembers | src/components/ResourceCenter.tsx:115 | the filter keeps exactly the resources of that category |
| ResourceCenter.InCategoryKeepsOrder | src/components/ResourceCenter.tsx:115 | the filter keeps source order |
| ResourceCenter.FeaturedResourceMembers | src/components/ResourceCenter.tsx:181 | the featured list holds exactly the featured resources |
| ResourceCenter.FeaturedBlock | src/components/ResourceCenter.tsx:170-181 | the featured block shows only under "All", listing exactly the featured resources |
| ResourceCenter.ReplaceFirstChangesFirstOnly | src/components/ResourceCenter.tsx:191 | a string-pattern replace changes only the first occurrence |
| ResourceCenter.Badge | src/components/ResourceCenter.tsx:191 | same length as the type, no lowercase letter left |
| ResourceCenter.BadgeAt | src/components/ResourceCenter.tsx:191 | each badge character is the upper-cased type character, except that the first dash becomes a space |
| ResourceCenter.DashedBadge | src/components/ResourceCenter.tsx:191 | a dashed type is shown as its upper-cased halves joined by a space |
| ResourceCenter.CaseStudyLabel | src/components/ResourceCenter.tsx:191 | "case-study" is shown as "CASE STUDY" |
| ResourceCenter.GuideLabel | src/components/ResourceCenter.tsx:191 | "guide" is shown as "GUIDE" |
| ResourceCenter.ResourceCenterState.constructor | src/components/ResourceCenter.tsx:110-111 | category "All" and no download running |
| ResourceCenter.ResourceCenterState.Visible | src/components/ResourceCenter.tsx:113-115 | a resource is listed exactly when it is in the data and the category is "All" or its own |
| ResourceCenter.ResourceCenterState.IsDisabled | src/components/ResourceCenter.tsx:207 | a button is disabled exactly while its own resource downloads |
| ResourceCenter.ResourceCenterState.SelectCategory | src/components/ResourceCenter.tsx:157 | the chosen category becomes selected |
| ResourceCenter.ResourceCenterState.StartDownload | src/components/ResourceCenter.tsx:117-118 | that resource's button is disabled and every other one enabled |
| ResourceCenter.ResourceCenterState.FinishDownload | src/components/ResourceCenter.tsx:121-126 | no button is disabled any more |
| MobileOptimization.ScaleRun | src/components/MobileOptimization.tsx:13 | the greedy run: every counted character is a digit or a dot, and the next one is not |
| MobileOptimization.Rewrite | src/components/MobileOptimization.tsx:12-17 | the result is empty exactly when the content is; every match is replaced (see RewriteForcesEveryMatch) |
| MobileOptimization.OnFocus | src/components/MobileOptimization.tsx:10-19 | a missing attribute stays missing, an empty one stays empty |
| MobileOptimization.NoMatchKeepsText | src/components/MobileOptimization.tsx:14-15 | when the pattern does not match, the replacement changes nothing |
| MobileOptimization.NoNewMatchAtFront | src/components/MobileOptimization.tsx:13-15 | replacing never creates a match that was not there |
| MobileOptimization.PlainPrefixKept | src/components/MobileOptimization.tsx:15 | text before the first match is copied unchanged |
| MobileOptimization.ReplaceAllIdempotent | src/components/MobileOptimization.tsx:15 | replacing twice is replacing once |
| MobileOptimization.ReplacedContainsForced | src/components/MobileOptimization.tsx:14-15 | content with a match holds "maximum-scale=1.0" after the replacement |
| MobileOptimization.AppendedIsFixed | src/components/MobileOptimization.tsx:16-17 | after appending, the content matches and the replacement leaves it alone |
| MobileOptimization.RewriteForcesScale | src/components/MobileOptimization.tsx:12-17 | a non-empty content always ends up holding "maximum-scale=1.0" |
| MobileOptimization.RewriteIdempotent | src/components/MobileOptimization.tsx:12-17 | rewriting twice is rewriting once |
| MobileOptimization.NoMatchInsideForced | src/components/MobileOptimization.tsx:13-15 | no match starts strictly inside the replacement text |
| MobileOptimization.EveryMatchForced | src/components/MobileOptimization.tsx:13-15 | the global flag: after the replacement every match reads exactly "maximum-scale=1.0", with no digit or dot of the old value left behind it |
| MobileOptimization.RewriteForcesEveryMatch | src/components/MobileOptimization.tsx:12-17 | in a rewritten non-empty content every maximum-scale setting reads exactly "maximum-scale=1.0" |
| MobileOptimization.FocusTwiceIsFocusOnce | src/components/MobileOptimization.tsx:10-19 | a second focus event writes back what the first one wrote |

## Left out

- Double arithmetic:
  - All amounts are exact reals. IEEE-754 rounding (for example `780000 × (1.2 − 1)`) is not modelled.
  - `Math.round` is `floor(x + 1/2)`, which matches it on the non-negative values that occur.
  - ROICalculator.DefaultScenario: its payback is the exact quotient 300000/306000, not the double.
- Locale formatting (`Intl.NumberFormat`, `toFixed`, `toLocaleDateString`, `toISOString`) has no logic worth modelling.
- Timers and async scheduling:
  - Each `setTimeout` delay is either dropped (the ROI calculator) or split into a start step and a finish step (forms, downloads).
  - `Promise.all` and React's effect scheduling are atomic steps.
- Overlapping timers:
  - The ROI calculator's overlapping-calculation race is not modelled.
  - ResourceCenter.ResourceCenterState.FinishDownload: two overlapping downloads race; the first to finish re-enables every button. The model takes the downloads one at a time.
- ROICalculator.CalculateROI: an unknown project type makes the source throw inside the timer callback. The model returns no result instead. The select only offers table keys.
- ConsultationBooking.GetAvailableDates:
  - Days are abstract numbers with a weekday 0-6.
  - The split between local `getDay` and the UTC date string is not modelled.
  - The ISO and display strings of each date are not modelled.
- `localStorage` and JSON:
  - Storage is a map, and parse failures are out of scope.
  - A stored consent of "" would count as no consent in the source. The consent store holds parsed preferences, so this case is not representable.
  - Each preloader instance owns its storage map rather than sharing the browser's.
- DataPreloader:
  - The unused `cache` Map field, the `usePreloadedData` hook and the mock payload contents are not modelled. Only the four lists' identity matters.
  - The fetch stubs cannot fail; the `fetchFails` parameter stands for the catch path.
- Form libraries:
  - zod's email regex is the parameter `isEmail`. zod's messages are represented by the set of failing fields.
  - react-hook-form's registration mechanics are not modelled.
  - Lengths count characters, whereas zod counts UTF-16 code units.
- FormSubmit.SubmitState.Finish: a throwing `onSuccess` callback is not modelled. In the source it runs after `reset()` inside the `try`, so a throw would end with status error and the fields already reset. The model's failure path stands for the request failing and keeps the fields.
- ResourceCenter.UpperChar: upper-cases ASCII letters only, whereas JavaScript's `toUpperCase` maps all of Unicode. The shipped type names are ASCII.
- BlogSection.FirstLetters: takes a whole character, whereas JavaScript's `n[0]` is one UTF-16 code unit. The two differ for a name starting with a character outside the Basic Multilingual Plane.
- Testimonials: ratings are whole numbers; a fractional rating is not modelled.
- MobileOptimization:
  - The DOM query for the meta tag and the event-listener registration and cleanup are not modelled.
  - The touch-target pass (`getBoundingClientRect`, adding 44-pixel classes) is not modelled.
- Rendering is not modelled: JSX, animation, Tailwind classes and the static pages and sections.
- `LoadingStrategy` and `PerformanceMonitor` are not part of this model.

### Where the code and its description differ

The model follows the code in each case:

- The web/simple estimate with no features spans 5-7 weeks, because `Math.round(4.8)` is 5, not 4.
- An id that is not in the feature table is silently ignored and adds nothing to the estimate. It is not rejected as an invalid selection.
- The estimate's confidence counts the raw selection length, so an unknown id still counts.
- A type or complexity id that does not resolve leaves the previous estimate in place. The estimate is not cleared.
