# Interactive sections of the digital-agency site, in Dafny

The site is a single page. Its only logic beyond static markup is a few
small state machines behind the interactive sections, and this project
models them:

- **Team** (`src/components/Team.jsx`). The `useCarousel` hook holds
  `currentIndex`. Its handlers are `scrollLeft`, `scrollRight`,
  `handleScroll` and `scrollToIndex`. The section also has desktop and
  mobile navigation bars and a category filter that sits in front of the
  carousel.
- **Services** (`src/components/Services.jsx`). This is an inlined copy of
  the same carousel with fixed constants: card width 400, six services,
  three per view. It has its own dot-click handler.
- **Case Studies** (`src/components/CaseStudies.jsx`). A vertical wheel
  delta is passed straight through to the horizontal scroll offset. A
  progress percentage is computed from that offset.
- **Contact Us** (`src/components/ContactUs.jsx`). The state is
  `formData`, `isSubmitting`, `submitStatus` and `isSubjectOpen`, with
  their handlers.
- **Navbar** (`src/components/Navbar.jsx`). The `isMobileMenuOpen` toggle.

Files and modules:

- `wrappers.dfy`: `Option`.
- `real_arith.dfy`: order facts about products of reals.
- `carousel.dfy`: the carousel arithmetic, the navigation flags and the
  hook's state as the class `CarouselState`.
- `team.dfy`: team members, the filter, and `TeamSection`.
- `services.dfy`: `ServicesSection`.
- `case_studies.dfy`: `Progress` and `CaseStudiesSection`.
- `contact_us.dfy`: `ContactForm`.
- `navbar.dfy`: `NavigationBar`.

Each component whose fields the source overwrites is a class. Its methods
are the handlers, and each method's `ensures` ties the new state to a pure
function of the old one. The properties are proved as lemmas about those
functions.

How the browser is modelled:

- `scrollContainerRef.current` being null or set is the `attached` flag.
- A `scrollTo({left})` request is the returned `Option<int>` target.
- The offset an `onScroll` handler reads is a parameter (Team, Services) or
  the `scrollLeft` field (Case Studies).
- Scroll offsets are exact `real`s.

An idealised carousel would clamp `scrollToIndex`, reset the index on a
category change, re-clamp when its bounds change and clamp the progress
bar. The code does none of these, and this model follows the code:

- `scrollToIndex` and `handleScroll` store their index unclamped.
- Changing the category keeps `currentIndex`
  (`Team.CategoryChangeKeepsIndex`).
- The progress value is never clamped. It lies in `[0, 100]` whenever
  `0 <= scrollLeft <= maxScroll` (`CaseStudies.ProgressWithinBounds`).
- The desktop "next" flag is `currentIndex >= totalItems - itemsPerView`,
  not `currentIndex < maxIndex`. The mobile "next" flag is
  `currentIndex >= totalItems - 1`.

Two observations about `handleSubmit` that the model does not rely on:

- Nothing wires it up. The submit button is not inside a `<form>`, and no
  `onSubmit` refers to `handleSubmit` (`src/components/ContactUs.jsx:175`,
  `:390-392`).
- Its `catch` branch cannot run, because the awaited timer never rejects.

The submission outcome is therefore a parameter, and both branches are
modelled.

## Model

| member | source | states |
|---|---|---|
| `Carousel.MaxIndex` | src/components/Team.jsx:114 | the last index the arrows reach is the larger of 0 and `itemsCount - itemsPerView` |
| `Carousel.StepLeft` | src/components/Team.jsx:103 | "previous" yields the larger of 0 and `currentIndex - 1` |
| `Carousel.StepRight` | src/components/Team.jsx:114-115 | "next" yields the smaller of `maxIndex` and `currentIndex + 1` |
| `Carousel.ScrollOffset` | src/components/Team.jsx:106 | the `scrollTo` target `index * itemWidth` is the left edge of item `index`: it divides by the width with no remainder and quotient `index` |
| `Carousel.Round` | src/components/Team.jsx:127 | `Math.round` returns the integer `r` with `r - 1/2 <= x < r + 1/2` (halves go up) |
| `Carousel.IndexAtOffset` | src/components/Team.jsx:124-130 | the index `handleScroll` stores is the one whose slot `[(k - 1/2)w, (k + 1/2)w)` holds the offset; it is not clamped |
| `Carousel.SlotDeterminesIndex` | src/components/Team.jsx:127 | exactly one index has the offset in its slot, so the rounded quotient is unique |
| `Carousel.IndexAtScrollOffset` | src/components/Team.jsx:101-140 | once the container settles at the requested `k * itemWidth`, `handleScroll` reads back `k`, so a step and its reconciliation agree |
| `Carousel.IndexAtIntegerOffset` | src/components/Team.jsx:127 | for whole-pixel offsets, `round(x / w)` equals `(2x + w) div (2w)` |
| `Carousel.PressAllStaysInRange` | src/components/Team.jsx:101-122 | from any index in `[0, maxIndex]`, every sequence of prev/next presses stays in `[0, maxIndex]` |
| `Carousel.PressAtBoundIsNoOp` | src/components/Team.jsx:101-122 | "previous" at 0 and "next" at `maxIndex` leave the index unchanged |
| `Carousel.NextThenPrevReturns` | src/components/Team.jsx:101-122 | at an interior index, next-then-prev and prev-then-next both return to the index |
| `Carousel.NextPastEndMovesBack` | src/components/Team.jsx:112-122 | from an index beyond `maxIndex` (left by an unclamped handler), "next" moves the index down to `maxIndex` |
| `Carousel.PrevDisabled` | src/components/Team.jsx:22 | `isAtStart` (`currentIndex === 0`, also the mobile prev at Team.jsx:66) holds exactly where "previous" leaves the index unchanged |
| `Carousel.NextDisabled` | src/components/Team.jsx:23 | `isAtEnd` (`currentIndex >= totalItems - itemsPerView`) holds, at any non-negative index, exactly where "next" does not advance |
| `Carousel.MobileNextDisabled` | src/components/Team.jsx:87 | the mobile next's `currentIndex >= totalItems - 1` holds, while the index names an item, exactly when the last dot is the lit one |
| `Carousel.Dots` | src/components/Team.jsx:74-80 | there are `totalItems` dots, and dot `k` is lit iff `k == currentIndex` |
| `Carousel.LitDotCount` | src/components/Team.jsx:74-80 | exactly one dot is lit when `0 <= currentIndex < totalItems`, and none otherwise |
| `Carousel.DesktopFlagsMatchPresses` | src/components/Team.jsx:22-23 | inside `[0, maxIndex]`, desktop prev (`currentIndex == 0`) and next (`currentIndex >= totalItems - itemsPerView`) are disabled exactly where the press would be a no-op |
| `Carousel.NextDisabledPastEnd` | src/components/Team.jsx:23 | past `maxIndex`, desktop "next" is always disabled |
| `Carousel.MobileNextNoStricter` | src/components/Team.jsx:87 | with `itemsPerView >= 1`, a disabled mobile next (`currentIndex >= totalItems - 1`) implies a disabled desktop next |
| `Carousel.MobileNextEnabledAtEnd` | src/components/Team.jsx:87 | with `2 <= itemsPerView <= totalItems`, mobile "next" is enabled at `maxIndex`, where pressing it changes nothing |
| `Carousel.CarouselState.constructor` | src/components/Team.jsx:97-99 | the hook starts at index 0 with the given count, width, items per view and container, in range |
| `Carousel.CarouselState.ScrollLeft` | src/components/Team.jsx:101-110 | with a container: index becomes `StepLeft(old)` and target `newIndex * itemWidth`; without one: nothing changes and no target; preserves `InRange` |
| `Carousel.CarouselState.ScrollRight` | src/components/Team.jsx:112-122 | with a container: index becomes `StepRight(old, maxIndex)` and target `newIndex * itemWidth`; without one: nothing changes; preserves `InRange` |
| `Carousel.CarouselState.HandleScroll` | src/components/Team.jsx:124-130 | with a container, the index becomes the unclamped `IndexAtOffset(scrollLeft, itemWidth)`; no scroll target is issued |
| `Carousel.CarouselState.ScrollToIndex` | src/components/Team.jsx:132-140 | the index becomes exactly `k`, even without a container; the target is `k * itemWidth` only with one |
| `Carousel.CarouselState.SetItemsCount` | src/components/Team.jsx:279 | a re-render with a new filtered count changes only the count |
| `Team.FilterMembers` | src/components/Team.jsx:268-270 | the filter returns no more members than it gets, each one in the input and shown by the active category |
| `Team.FilterAllKeepsEveryone` | src/components/Team.jsx:268-270 | with "All" active, every member is kept in order |
| `Team.FilterIsSubsequence` | src/components/Team.jsx:268-270 | the filtered list is an order-preserving subsequence of the member list |
| `Team.FilterKeepsExactlyShown` | src/components/Team.jsx:268-270 | each shown member keeps its full multiplicity and no other member survives; with the subsequence lemma this fixes the result |
| `Team.FilterTeamAll` | src/components/Team.jsx:219-270 | "All" shows all four members, including the one tagged "All" |
| `Team.FilterTeamGraphicDesigners` | src/components/Team.jsx:219-270 | "Graphic Designers" shows the two interns, in order |
| `Team.FilterTeamDataAnalysts` | src/components/Team.jsx:219-270 | "Data Analysts" shows only the product manager |
| `Team.FilterTeamWebDevelopers` | src/components/Team.jsx:219-270 | "Web Developers" shows nobody |
| `Team.TeamSection.constructor` | src/components/Team.jsx:216-279 | the section starts on "All" with the hook at index 0 over the filtered count, width 320 and 3 per view |
| `Team.TeamSection.FilteredMembers` | src/components/Team.jsx:268-270 | every member listed is on the team and shown by the active category; under "All" it is the whole team; it has as many members as the carousel counts |
| `Team.TeamSection.DesktopPrevDisabled` | src/components/Team.jsx:22 | the desktop prev is disabled exactly where `scrollLeft` would leave the hook's index unchanged |
| `Team.TeamSection.DesktopNextDisabled` | src/components/Team.jsx:23 | the desktop next, computed from the filtered count, is disabled (at a non-negative index) exactly where the hook's `scrollRight` would not advance |
| `Team.TeamSection.MobileNextButtonDisabled` | src/components/Team.jsx:87 | while the index names a shown member, the mobile next is disabled exactly when the last dot is lit |
| `Team.TeamSection.MobileDots` | src/components/Team.jsx:74-78 | one dot per shown member, dot `k` lit iff `k == currentIndex`; exactly one lit while the index names a shown member and none otherwise |
| `Team.TeamSection.SelectCategory` | src/components/Team.jsx:359-363 | a category click sets `activeCategory`, and the carousel count follows the filter; `currentIndex` is kept, not reset |
| `Team.CategoryChangeKeepsIndex` | src/components/Team.jsx:268-279 | Scenario: "next" reaches 1 on "All"; after switching to "Graphic Designers" (maxIndex 0) the index is still 1, prev is enabled and next is disabled |
| `Services.ServicesSection.constructor` | src/components/Services.jsx:22-23 | the section starts at index 0 |
| `Services.ServicesSection.ScrollLeft` | src/components/Services.jsx:131-141 | with a container: index becomes `max(0, i - 1)` and target `newIndex * 400`; otherwise nothing changes |
| `Services.ServicesSection.ScrollRight` | src/components/Services.jsx:143-154 | with a container: index becomes `min(max(0, 6 - 3), i + 1)` and target `newIndex * 400`; otherwise nothing changes |
| `Services.ServicesSection.HandleScroll` | src/components/Services.jsx:156-163 | with a container, the index becomes the unclamped `round(scrollLeft / 400)` |
| `Services.ServicesSection.DotClick` | src/components/Services.jsx:264-272 | dot `i` sets the index to `i`; the target is `i * 400` only with a container |
| `Services.ServicesSection.PrevButtonDisabled` | src/components/Services.jsx:180 | both prev buttons (`currentIndex === 0`, also at Services.jsx:250) are disabled exactly where `scrollLeft` leaves the index unchanged |
| `Services.ServicesSection.DesktopNextDisabled` | src/components/Services.jsx:190 | the desktop next is disabled from index 3 on, and at a non-negative index exactly where `scrollRight` does not advance |
| `Services.ServicesSection.MobileNextButtonDisabled` | src/components/Services.jsx:279 | the mobile next is disabled only from index 5 on; for an index naming a service, exactly when the last dot is lit |
| `Services.ServicesSection.DotRow` | src/components/Services.jsx:258-262 | six dots, dot `k` lit iff `k == currentIndex`; exactly one lit while the index names a service and none otherwise |
| `Services.FourNextPresses` | src/components/Services.jsx:143-154 | Scenario: from 0, four "next" presses give indices 1, 2, 3, 3 and targets 400, 800, 1200, 1200 |
| `Services.MobileNextAtLastPage` | src/components/Services.jsx:277-283 | Scenario: mobile "next" is enabled at 3 and 4 and disabled at 5, yet pressing it at 3 leaves the index at 3 |
| `Services.ScrollReadings` | src/components/Services.jsx:156-163 | offset 600 reads as 2 and 599 as 1 (halves round up); 2400 reads as 6, where no dot is lit |
| `CaseStudies.Progress` | src/components/CaseStudies.jsx:80-86 | progress is 0 when `maxScroll <= 0`; otherwise `progress * maxScroll == 100 * scrollLeft` |
| `CaseStudies.ProgressWithinBounds` | src/components/CaseStudies.jsx:84 | for `0 <= scrollLeft <= maxScroll`, progress lies in `[0, 100]` |
| `CaseStudies.ProgressAtEnds` | src/components/CaseStudies.jsx:84 | when `maxScroll > 0`, progress is exactly 0 at offset 0 and exactly 100 at `maxScroll` |
| `CaseStudies.ProgressMonotone` | src/components/CaseStudies.jsx:84 | for fixed widths, progress never decreases as the offset grows |
| `CaseStudies.ProgressAdditive` | src/components/CaseStudies.jsx:73-86 | the progress of `scrollLeft + deltaY` is the progress of `scrollLeft` plus that of `deltaY` |
| `CaseStudies.CaseStudiesSection.constructor` | src/components/CaseStudies.jsx:70-97 | progress starts at 0, and the effect's first `handleScroll()` sets it from the initial offset when the container exists |
| `CaseStudies.CaseStudiesSection.HandleWheel` | src/components/CaseStudies.jsx:73-78 | a non-zero `deltaY` is added to `scrollLeft` and the default is prevented; a zero delta changes nothing and prevents nothing |
| `CaseStudies.CaseStudiesSection.HandleScroll` | src/components/CaseStudies.jsx:80-86 | the stored progress becomes `Progress` of the current offset and widths |
| `CaseStudies.WheelThenScroll` | src/components/CaseStudies.jsx:73-86 | a wheel step followed by its scroll event moves the stored progress by `Progress(deltaY)` |
| `ContactUs.WithInput` | src/components/ContactUs.jsx:162-168 | the named field gets `checked` for a checkbox and `value` otherwise; every other field is unchanged and the key set only gains the named field |
| `ContactUs.WithSubject` | src/components/ContactUs.jsx:170-173 | only `subject` changes, and it becomes the chosen option |
| `ContactUs.EmptyFormWellFormed` | src/components/ContactUs.jsx:29-37 | the initial form has the seven fields: six empty strings and `isNotRobot = false` |
| `ContactUs.PageUpdatesKeepShape` | src/components/ContactUs.jsx:162-173 | the page's own inputs and the subject menu keep the seven fields, each holding its own kind |
| `ContactUs.CheckboxOnTextField` | src/components/ContactUs.jsx:162-168 | the update never checks which field it writes: a checkbox event naming a string field stores a boolean there |
| `ContactUs.LaterInputWins` | src/components/ContactUs.jsx:162-168 | when two edits hit the same field, the later one wins |
| `ContactUs.InputsOnDistinctFieldsCommute` | src/components/ContactUs.jsx:162-168 | edits of different fields commute |
| `ContactUs.SubjectIsTextInput` | src/components/ContactUs.jsx:162-173 | picking a subject updates `formData` the same way a text input named `subject` would |
| `ContactUs.ContactForm.constructor` | src/components/ContactUs.jsx:29-40 | the form starts empty, not submitting, with no status and the menu closed |
| `ContactUs.ContactForm.HandleInputChange` | src/components/ContactUs.jsx:162-168 | `formData` becomes `WithInput(old formData, e)`, and nothing else changes |
| `ContactUs.ContactForm.HandleSubjectSelect` | src/components/ContactUs.jsx:170-173 | `subject` is set and the menu is closed; nothing else changes |
| `ContactUs.ContactForm.ToggleSubjectMenu` | src/components/ContactUs.jsx:327 | the subject button flips `isSubjectOpen` |
| `ContactUs.ContactForm.StartSubmit` | src/components/ContactUs.jsx:175-178 | starting a submission sets `isSubmitting` and clears `submitStatus` |
| `ContactUs.ContactForm.SettleSubmit` | src/components/ContactUs.jsx:180-197 | on success, status is "success" and the form is reset; on failure, status is "error" and the form is untouched; either way `isSubmitting` becomes false |
| `ContactUs.ContactForm.HandleSubmit` | src/components/ContactUs.jsx:175-198 | the button is disabled while the submission is pending and enabled afterwards, with the status and form of `SettleSubmit` |
| `ContactUs.ContactForm.SubmitDisabled` | src/components/ContactUs.jsx:392 | the submit button is disabled exactly while `isSubmitting`; `HandleSubmit` states that this holds while pending and not afterwards |
| `ContactUs.RejectedThenAccepted` | src/components/ContactUs.jsx:175-198 | Scenario: a rejected submission keeps the typed name and the ticked box, shows the error and re-enables the button; a later success clears the form |
| `ContactUs.ToggleSubjectTwice` | src/components/ContactUs.jsx:327 | two presses of the subject button restore the menu and leave the form alone |
| `Navbar.ButtonIcon` | src/components/Navbar.jsx:63 | the button shows the X icon iff the menu is open |
| `Navbar.NavigationBar.constructor` | src/components/Navbar.jsx:6 | the menu starts closed |
| `Navbar.NavigationBar.MobileLinksShown` | src/components/Navbar.jsx:69 | the mobile link list is rendered exactly while the menu button shows the close icon |
| `Navbar.NavigationBar.ToggleMobileMenu` | src/components/Navbar.jsx:16-18 | `toggleMobileMenu` flips `isMobileMenuOpen` |
| `Navbar.NavigationBar.ClickMobileLink` | src/components/Navbar.jsx:82 | clicking a mobile link closes the menu, whatever it was |
| `Navbar.ToggleTwice` | src/components/Navbar.jsx:16-18 | two toggles restore the menu state |
| `Navbar.OpenThenFollowLink` | src/components/Navbar.jsx:58-89 | Scenario: opening the menu shows the links and the X icon; following a link hides the links and brings back the menu icon |

## Left out

- GSAP entrance animations, timelines and `ScrollTrigger` (every `gsap.context` effect, plus all of `Hero.jsx` and `WhyUs.jsx`). They are timing-based calls into a library the model cannot see.
- Smooth-scroll animation, the browser's clamping of `scrollLeft` to `[0, maxScroll]`, and CSS scroll snapping. These are asynchronous browser behaviour, so only the offset each handler asks for is modelled. A wheel step's follow-up scroll event is a separate `HandleScroll` call.
- Listener registration and removal in the Case Studies effect, React re-rendering and batching. Each handler is one atomic state update.
- The 2000 ms `setTimeout` in `handleSubmit` and the `preventDefault` call on the submit event. The outcome of the wait is the `succeeded` parameter.
- Rounding progress for display (`Math.round(scrollProgress)`), and all JSX, CSS classes and colours.
- `cardsRef` element arrays. They only feed the animations.
- Card payloads: images, descriptions, icons, gradients, and the contact and social link lists.
- Resizing. `scrollWidth` and `clientWidth` are fixed for a `CaseStudiesSection`, and item widths are the constants in the source.
- `Footer.jsx`, `Hero.jsx`, `WhyUs.jsx` and `pages/Home.jsx`. They are static content and page composition.
- Carousel.IndexAtOffset: divides exactly over `real`, not in IEEE double precision. The scroll offset is a real number, not a browser `number`.
- CaseStudies.Progress: computed exactly over `real`, so IEEE rounding of the quotient is not modelled.
