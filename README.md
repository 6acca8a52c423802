# hazel portfolio site: the logic behind the pages, in Dafny

This project models the small pieces of logic in the hazel portfolio site (a
React and TypeScript single-page site) that can be stated exactly, and proves
what they do:

- **Particle field**: the animated background (`AnimatedBackground`).
  - `hexToRgb` parses a colour code.
  - The particle array is rebuilt on every resize.
  - Each frame moves every particle, reflects its velocity at the border, and
    joins close pairs with faint lines.
- **Splash screen** (`SplashScreen`): the capped progress counter, the timers
  around it, and the generator of thirty falling leaves.
- **Skills dashboard** (`SkillsDashboard`): the chart-size step functions of
  the window width, and the category switch.
- **Project grid** (`Projects`): the category filter, the animation-hook table
  and the technology icon table.
- **Data blog** (`DataBlog`): the featured/regular split of the posts, and the
  article modal's state.
- **Animated heading** (`AnimatedText`): the word split, the highlight test,
  the separators and the visibility latch.
- **Scroll-reveal hook** (`ScrollAnimation`): a one-way `isVisible` flag.
- **Contact form** (`Contact`): the field record, its update and reset, and
  the success flag.
- **Header** (`Header`): the mobile menu flag.
- **Tilting card** (`HoverCard`): the tilt angles and the reset.

Each source file is one module. In `animated_background.dfy`:

- Pure code (`hexToRgb`, the per-particle step, the pair test) becomes
  functions and lemmas.
- Code that updates state becomes a class whose methods are proved against
  those functions: `ParticleCanvas.InitParticles` rebuilds the array in a
  loop, and `ParticleCanvas.DrawParticles` updates the particles one by one.

Two small modules are shared:

- `theme.dfy` holds the colours of `src/styles/theme.ts`.
- `random_draws.dfy` stands in for `Math.random()`. Every random number is a
  parameter in [0, 1).

Numbers are Dafny `real`s.

## Model

| member | source | states |
|---|---|---|
| AnimatedBackground.HexToRgb | src/components/shared/AnimatedBackground.tsx:120-124 | `hexToRgb`, characterised by HexToRgbSpec, ColourCodeRoundTrip, HighlightColourParses and ShortAndLongCodesFallBack |
| AnimatedBackground.ParseHexByte | src/components/shared/AnimatedBackground.tsx:121-123 | two hex digits (either case) parse to a byte value below 256 |
| AnimatedBackground.DecimalRoundTrip | src/components/shared/AnimatedBackground.tsx:123 | the decimal text written for a number reads back as that number, so each component of the result is the byte's value in decimal |
| AnimatedBackground.HexToRgbSpec | src/components/shared/AnimatedBackground.tsx:120-124 | an optional `#` plus exactly six hex digits gives the three byte values joined by ", "; every other input gives "255, 255, 255" |
| AnimatedBackground.ColourCodeRoundTrip | src/components/shared/AnimatedBackground.tsx:120-123 | any three bytes written as a colour code, upper or lower case, with or without `#`, match the pattern and parse back to those bytes |
| AnimatedBackground.HighlightColourParses | src/components/shared/AnimatedBackground.tsx:37 | the default particle colour, the theme's highlight `#CD853F`, parses to "205, 133, 63" |
| AnimatedBackground.ShortAndLongCodesFallBack | src/components/shared/AnimatedBackground.tsx:124 | the 8-digit `#F5F5DC99` of the theme and the 3-digit `#fff` both fall back to white |
| AnimatedBackground.NewParticle | src/components/shared/AnimatedBackground.tsx:59-66 | one particle of `initParticles` built from its draws, characterised by NewParticleRanges and NewParticleInField |
| AnimatedBackground.NewParticleRanges | src/components/shared/AnimatedBackground.tsx:59-66 | with draws in [0, 1) a new particle has x in [0, width), y in [0, height) (0 on an empty axis), radius in [1, 3), both speeds in [-0.25, 0.25), alpha in [0.2, 0.7), and the configured colour |
| AnimatedBackground.NewParticleInField | src/components/shared/AnimatedBackground.tsx:59-66 | a new particle satisfies the field invariant the frames preserve |
| AnimatedBackground.Step | src/components/shared/AnimatedBackground.tsx:76-86 | the move and border reflection of one particle, characterised by StepMovesAndReflects, NearAxisStep, StepKeepsInField and OvershootsForOneFrame |
| AnimatedBackground.StepMovesAndReflects | src/components/shared/AnimatedBackground.tsx:76-86 | one update adds the speed to the position; a non-zero speed is negated iff the new coordinate is below 0 or above the canvas size, independently per axis; speed magnitudes, radius, alpha and colour are kept; no clamping |
| AnimatedBackground.NearAxisStep | src/components/shared/AnimatedBackground.tsx:80-86 | a coordinate at most one speed outside [0, size], and heading back when outside, stays so after a step |
| AnimatedBackground.StepKeepsInField | src/components/shared/AnimatedBackground.tsx:74-86 | a step preserves the field invariant: colour, radius, alpha and speed ranges, and the near-the-canvas bound |
| AnimatedBackground.OvershootsForOneFrame | src/components/shared/AnimatedBackground.tsx:76-82 | a particle at 0 moving left ends at -0.25 and one at 100 moving right ends at 100.25, outside the canvas, with the speed flipped |
| AnimatedBackground.StrokeAlpha | src/components/shared/AnimatedBackground.tsx:109-111 | the line opacity for a distance, characterised by DistanceThreshold and HundredApartAlpha |
| AnimatedBackground.DistanceThreshold | src/components/shared/AnimatedBackground.tsx:106-111 | for a distance d, comparing d² with 150² is comparing d with 150, and every connected pair gets a stroke alpha in (0, 0.15] |
| AnimatedBackground.HundredApartAlpha | src/components/shared/AnimatedBackground.tsx:109-111 | two particles 100 apart get a stroke alpha of (1 - 100/150) · 0.15 = 0.05 |
| AnimatedBackground.Connections | src/components/shared/AnimatedBackground.tsx:99-118 | the lines `connectParticles` draws from one particle, characterised by ConnectionsSound, ConnectionsComplete, ConnectionsLabels and ConnectionsOrdered |
| AnimatedBackground.ConnectionsSound | src/components/shared/AnimatedBackground.tsx:102-117 | every line drawn from a particle goes to a later particle closer than 150, labelled with that particle's index |
| AnimatedBackground.ConnectionsComplete | src/components/shared/AnimatedBackground.tsx:102-117 | every later particle closer than 150 gets its line |
| AnimatedBackground.ConnectionsLabels | src/components/shared/AnimatedBackground.tsx:102-103 | every line starts at the particle itself and ends at an index after it |
| AnimatedBackground.ConnectionsOrdered | src/components/shared/AnimatedBackground.tsx:102 | the lines come in increasing order of the later index |
| AnimatedBackground.FrameLinesUpTo | src/components/shared/AnimatedBackground.tsx:74-96 | the lines of the first n particles of a frame, characterised by FrameLinesSound, FrameLinesComplete, FrameLinesLabels and FrameLinesOrdered |
| AnimatedBackground.FrameLines | src/components/shared/AnimatedBackground.tsx:71-97 | all the lines of one frame, characterised by the FrameLines lemmas, TwoParticleFrame and DrawParticles |
| AnimatedBackground.FrameLinesSound | src/components/shared/AnimatedBackground.tsx:74-96 | every line of a frame joins particle i, already moved, to a close particle j > i still at its position from before the frame |
| AnimatedBackground.FrameLinesComplete | src/components/shared/AnimatedBackground.tsx:74-96 | every pair i < j with moved particle i close to unmoved particle j gets a line |
| AnimatedBackground.FrameLinesLabels | src/components/shared/AnimatedBackground.tsx:95 | each pair appears with i < j, so each unordered pair is considered once |
| AnimatedBackground.FrameLinesOrdered | src/components/shared/AnimatedBackground.tsx:74-117 | the lines of a frame come in order of i, then of j |
| AnimatedBackground.TwoParticleFrame | src/components/shared/AnimatedBackground.tsx:74-111 | two particles 100 apart, both leaving a 100 x 100 canvas, are joined by one line measured from the first one's new position, at distance 100.25 |
| AnimatedBackground.ParticleCanvas.constructor | src/components/shared/AnimatedBackground.tsx:132-133 | mounting sizes the canvas and fills it with max(particleCount, 0) fresh particles of the configured colour |
| AnimatedBackground.ParticleCanvas.HandleResize | src/components/shared/AnimatedBackground.tsx:50-54 | a resize takes the element's size and rebuilds the particles for it |
| AnimatedBackground.ParticleCanvas.InitParticles | src/components/shared/AnimatedBackground.tsx:56-69 | the old array is discarded; exactly max(particleCount, 0) particles follow, the k-th built from the k-th draws, all in the field invariant; a negative count gives an empty field |
| AnimatedBackground.ParticleCanvas.ConnectParticles | src/components/shared/AnimatedBackground.tsx:99-118 | the loop over j > index returns exactly the lines of the connection specification for the current array |
| AnimatedBackground.ParticleCanvas.DrawParticles | src/components/shared/AnimatedBackground.tsx:71-97 | every particle is stepped in place, one circle is drawn per moved particle, the lines are exactly the frame's lines, and the field invariant is kept |
| SplashScreen.ProgressTick | src/components/shared/SplashScreen.tsx:141-150 | a tick gives min(prev + 6, 100), never more than 100, never less than a previous value up to 100; it clears the interval exactly when it yields 100; at 100 it stays at 100 |
| SplashScreen.ProgressAfter | src/components/shared/SplashScreen.tsx:140-150 | the progress after n ticks of the interval from 0, characterised by ProgressAfterClosedForm, ProgressMonotone, SeventeenthTickCompletes and ReachableProgress |
| SplashScreen.ProgressAfterClosedForm | src/components/shared/SplashScreen.tsx:134-150 | after n ticks from 0 the progress is min(6n, 100) |
| SplashScreen.ProgressMonotone | src/components/shared/SplashScreen.tsx:142-149 | the progress never decreases across ticks and stays in [0, 100] |
| SplashScreen.SeventeenthTickCompletes | src/components/shared/SplashScreen.tsx:145-147 | ticks 1 to 16 stay below 100, the 16th gives 96, and the 17th gives 100 and clears the interval |
| SplashScreen.ReachableProgress | src/components/shared/SplashScreen.tsx:141-150 | every reachable progress value is a multiple of 6 in [0, 100] or 100 itself |
| SplashScreen.Splash.constructor | src/components/shared/SplashScreen.tsx:133-158 | mounting starts at progress 0, animating, with the interval and the 3333 ms timer running |
| SplashScreen.Splash.IntervalTick | src/components/shared/SplashScreen.tsx:140-151 | a running interval applies the tick and stops itself on reaching 100; a cleared one changes nothing |
| SplashScreen.Splash.AnimationTimeout | src/components/shared/SplashScreen.tsx:154-158 | the timer ends the animation and schedules the completion callback, once |
| SplashScreen.Splash.CompletionTimeout | src/components/shared/SplashScreen.tsx:157 | the scheduled completion calls `onAnimationComplete` once |
| SplashScreen.Splash.Unmount | src/components/shared/SplashScreen.tsx:160-164 | unmounting clears the interval and the timer but not an already scheduled completion |
| SplashScreen.PickIndex | src/components/shared/SplashScreen.tsx:265-266 | the floor of a draw in [0, 1) times n is a valid index below n (2 icons, 3 colours) |
| SplashScreen.NewLeaf | src/components/shared/SplashScreen.tsx:257-267 | one leaf of `generateLeaves` built from its draws, characterised by NewLeafInRange and GenerateLeaves |
| SplashScreen.NewLeafInRange | src/components/shared/SplashScreen.tsx:257-267 | a leaf has the given id, top "-50px", left in [0, 100), delay in [0, 1.33), duration in [1.67, 4.34), size in [20, 70), rotation in [0, 360), one of the two leaf icons and one of the three theme colours |
| SplashScreen.GenerateLeaves | src/components/shared/SplashScreen.tsx:251-272 | exactly 30 leaves with ids 0 to 29 in order, each in those ranges and built from its own draws |
| SkillsDashboard.RadarChartSize | src/components/Skills/SkillsDashboard.tsx:249-254 | `getRadarChartSize`, characterised by RadarChartBands and SizesMonotone |
| SkillsDashboard.TickFontSize | src/components/Skills/SkillsDashboard.tsx:256-260 | `getTickFontSize`, characterised by ThreeBandTables and SizesMonotone |
| SkillsDashboard.BarSize | src/components/Skills/SkillsDashboard.tsx:262-266 | `getBarSize`, characterised by ThreeBandTables and SizesMonotone |
| SkillsDashboard.YAxisWidth | src/components/Skills/SkillsDashboard.tsx:268-272 | `getYAxisWidth`, characterised by ThreeBandTables and SizesMonotone |
| SkillsDashboard.ChartMargin | src/components/Skills/SkillsDashboard.tsx:275-283 | the margin always has top 5, bottom 5 and left 0, and right 10, 15 or 20 |
| SkillsDashboard.Band | src/components/Skills/SkillsDashboard.tsx:257-273 | the three bands are widths up to 480, up to 768, and above 768 (inclusive thresholds) |
| SkillsDashboard.ThreeBandTables | src/components/Skills/SkillsDashboard.tsx:257-283 | font size 8/9/10, bar size 10/12/15, Y-axis width 50/60/80 and right margin 10/15/20 by band |
| SkillsDashboard.RadarChartBands | src/components/Skills/SkillsDashboard.tsx:250-255 | the radar size is 45 exactly up to 480, 55 exactly on (480, 768], 65 exactly on (768, 1024], and 70 exactly above |
| SkillsDashboard.SizesMonotone | src/components/Skills/SkillsDashboard.tsx:250-283 | every width-indexed helper is non-decreasing in the window width |
| SkillsDashboard.DataForCategory | src/components/Skills/SkillsDashboard.tsx:291-302 | the category switch, characterised by DataForCategorySelects and CategoryDataFitsAxis |
| SkillsDashboard.DataForCategorySelects | src/components/Skills/SkillsDashboard.tsx:291-302 | "tools" and "visualization" select their data; the languages data comes exactly for every other string, including the initial "languages" |
| SkillsDashboard.CategoryDataFitsAxis | src/components/Skills/SkillsDashboard.tsx:158-185 | every category yields six bars whose values all lie in the X-axis domain [0, 100] |
| Projects.FilterByCategory | src/components/Projects/Projects.tsx:343 | the filter result is no longer than its input and holds only projects of the category |
| Projects.FilteredProjects | src/components/Projects/Projects.tsx:341-343 | `filteredProjects`, characterised by FilteredProjectsIdempotent, FilterMembership, ProjectsDataPartition and AnimationLookupNeverMisses |
| Projects.FilterMembership | src/components/Projects/Projects.tsx:343 | a project is in the result iff it is in the list and has the category |
| Projects.FilterAppend | src/components/Projects/Projects.tsx:343 | filtering a concatenation filters each part, so the original order is kept |
| Projects.FilterKeepsMatching | src/components/Projects/Projects.tsx:343 | a list all of one category passes its filter unchanged |
| Projects.FilteredProjectsIdempotent | src/components/Projects/Projects.tsx:341-343 | "all" returns every project in order; any filter applied twice gives what it gives once |
| Projects.FilterLength | src/components/Projects/Projects.tsx:343 | the filter keeps as many projects as have the category |
| Projects.CategoriesPartition | src/components/Projects/Projects.tsx:369-392 | when every project has one of the three button categories, the three filters' results add up to the whole list |
| Projects.ProjectsDataPartition | src/components/Projects/Projects.tsx:241-307 | on the site's data the buttons show exactly project 4; projects 1 and 5; and projects 2, 3 and 6, in that order |
| Projects.AnimationLookupNeverMisses | src/components/Projects/Projects.tsx:332-339 | every card rendered under any filter finds its id in the animation table |
| Projects.TechIcons | src/components/Projects/Projects.tsx:425-429 | a tech tag's slot holds an icon iff the tag is a key of the icon table, and then the mapped icon |
| Projects.EveryTechTagHasIcon | src/components/Projects/Projects.tsx:311-316 | every tech tag in the site's data is a key of the icon table, so every slot holds an icon |
| DataBlog.FeaturedPost | src/components/Blog/DataBlog.tsx:506 | the result is absent iff no post is featured, otherwise it is a featured post with no featured post before it |
| DataBlog.RegularPosts | src/components/Blog/DataBlog.tsx:507 | the regular posts are no more than all posts and none of them is featured |
| DataBlog.RegularMembership | src/components/Blog/DataBlog.tsx:507 | a post is regular iff it is in the list and is not featured (a missing flag counts as not featured) |
| DataBlog.RegularAppend | src/components/Blog/DataBlog.tsx:507 | the regular posts keep their original order |
| DataBlog.LaterFeaturedHidden | src/components/Blog/DataBlog.tsx:506-507 | a featured post after the first one appears in neither the featured slot nor the regular list |
| DataBlog.ShownOnce | src/components/Blog/DataBlog.tsx:506-507 | the featured post is not also among the regular posts |
| DataBlog.BlogDataPartition | src/components/Blog/DataBlog.tsx:513-518 | on the site's data post 1 is featured and posts 2 to 5 are regular, at most the four animation hooks indexed by position |
| DataBlog.BlogModal.constructor | src/components/Blog/DataBlog.tsx:503-504 | no post is selected and the modal is closed |
| DataBlog.BlogModal.OpenArticle | src/components/Blog/DataBlog.tsx:520-523 | the post becomes the selected one and the modal opens |
| DataBlog.BlogModal.CloseModal | src/components/Blog/DataBlog.tsx:525-527 | the modal closes and the selected post is kept |
| AnimatedText.Split | src/components/shared/AnimatedText.tsx:45 | a text with k spaces splits into k + 1 words, none holding a space |
| AnimatedText.JoinSplitReplaces | src/components/shared/AnimatedText.tsx:45 | joining the words with any separator gives the text with its spaces replaced by that separator |
| AnimatedText.JoinSplit | src/components/shared/AnimatedText.tsx:45 | joining the words with a space gives back the text exactly |
| AnimatedText.SplitJoin | src/components/shared/AnimatedText.tsx:45 | splitting a space-joined list of space-free words gives back the words |
| AnimatedText.DoubleSpaceGivesEmptyWord | src/components/shared/AnimatedText.tsx:45 | a run of two spaces yields an empty word, and the empty text yields one empty word |
| AnimatedText.RenderWord | src/components/shared/AnimatedText.tsx:76-93 | `renderWord` for one word, characterised by RenderSpans, HighlightIsExact and SeparatorsBetweenWords |
| AnimatedText.Render | src/components/shared/AnimatedText.tsx:105 | one span per word |
| AnimatedText.RenderSpans | src/components/shared/AnimatedText.tsx:76-93 | each word's span shows its characters in order, is highlighted iff the word is in `highlight`, and has a separator iff it is not the last |
| AnimatedText.HighlightIsExact | src/components/shared/AnimatedText.tsx:78-79 | membership is exact and case-sensitive: "Projects" is highlighted by ["Projects"], "projects" and "Portfolio" are not |
| AnimatedText.SeparatorsBetweenWords | src/components/shared/AnimatedText.tsx:92 | n words get n - 1 separators |
| AnimatedText.ShownIsJoin | src/components/shared/AnimatedText.tsx:83-92 | the characters on screen are the words joined by non-breaking spaces |
| AnimatedText.RenderedText | src/components/shared/AnimatedText.tsx:83-105 | the heading shows the text itself, character by character, with each space drawn as a non-breaking space |
| AnimatedText.TextReveal.constructor | src/components/shared/AnimatedText.tsx:36 | the local flag starts false |
| AnimatedText.TextReveal.ScrollVisibilityChanged | src/components/shared/AnimatedText.tsx:38-42 | the flag becomes true when the hook reports visible and is never cleared |
| ScrollAnimation.ResolveOptions | src/hooks/useScrollAnimation.tsx:8-11 | a missing threshold is 0.2 and a missing root margin "0px"; given ones are kept |
| ScrollAnimation.VisibleAfter | src/hooks/useScrollAnimation.tsx:20-24 | the flag after a run of observer entries, characterised by VisibleIffSomeIntersecting, VisibleStaysVisible and OnEntry |
| ScrollAnimation.VisibleIffSomeIntersecting | src/hooks/useScrollAnimation.tsx:21-23 | after a run of entries the flag is set iff it was set or some entry intersected |
| ScrollAnimation.VisibleStaysVisible | src/hooks/useScrollAnimation.tsx:13-38 | once set, the flag stays set through any later entries |
| ScrollAnimation.ScrollReveal.constructor | src/hooks/useScrollAnimation.tsx:12-13 | the flag starts false and nothing is observed yet |
| ScrollAnimation.ScrollReveal.RunEffect | src/hooks/useScrollAnimation.tsx:15-31 | after the effect an element is observed iff one is attached |
| ScrollAnimation.ScrollReveal.Cleanup | src/hooks/useScrollAnimation.tsx:33-37 | the cleanup stops observing |
| ScrollAnimation.ScrollReveal.OnEntry | src/hooks/useScrollAnimation.tsx:20-24 | an entry sets the flag only when the element is observed and intersecting; nothing clears it |
| Contact.EmptyFormIsEmpty | src/components/Contact/Contact.tsx:151-156 | the initial record has exactly the four control names as keys, all empty |
| Contact.ChangeField | src/components/Contact/Contact.tsx:166-169 | the updater sets the named field to the value, keeps every other field, and adds no key but the name |
| Contact.ChangeKeepsShape | src/components/Contact/Contact.tsx:164-170 | on a four-field record the keys stay the four control names iff the event's name is one of them |
| Contact.FillingTheForm | src/components/Contact/Contact.tsx:251-295 | typing into the four controls from the empty form gives exactly those four values |
| Contact.ContactForm.constructor | src/components/Contact/Contact.tsx:151-158 | the form starts empty and not submitted |
| Contact.ContactForm.HandleChange | src/components/Contact/Contact.tsx:164-170 | a change applies the updater to the record and touches nothing else |
| Contact.ContactForm.HandleSubmit | src/components/Contact/Contact.tsx:172-189 | submitting resets all four fields to "", sets the success flag, and schedules one more hide |
| Contact.ContactForm.SuccessTimeout | src/components/Contact/Contact.tsx:187-189 | a scheduled hide clears the success flag and leaves the form unchanged |
| Header.MobileMenu.constructor | src/components/Header/Header.tsx:152 | the menu starts closed |
| Header.MobileMenu.ToggleMenu | src/components/Header/Header.tsx:155-157 | the toggle flips the flag |
| Header.MobileMenu.CloseMenu | src/components/Header/Header.tsx:159-161 | closing leaves the menu closed |
| Header.MobileMenu.HandleLogoClick | src/components/Header/Header.tsx:163-171 | a logo click asks to scroll to the top iff the path is "/", and always ends with the menu closed |
| Header.MobileMenu.NavLinkClick | src/components/Header/Header.tsx:220-240 | a click on any of the seven links closes the menu |
| Header.ToggleTwiceRestores | src/components/Header/Header.tsx:155-157 | toggling twice restores the flag |
| Header.CloseIsIdempotent | src/components/Header/Header.tsx:159-161 | closing twice is the same as closing once |
| HoverCard.TiltAngles | src/components/shared/HoverCard.tsx:70-80 | the angles `handleMouseMove` computes, characterised by CentreIsFlat, TiltBounded, TiltAtEdges and HandleMouseMove |
| HoverCard.CentreIsFlat | src/components/shared/HoverCard.tsx:75-80 | the pointer at the card centre gives no rotation about either axis |
| HoverCard.TiltBounded | src/components/shared/HoverCard.tsx:79-80 | for a pointer inside the card both angles lie in [-abs(intensity), abs(intensity)] |
| HoverCard.TiltAtEdges | src/components/shared/HoverCard.tsx:79-80 | the top edge gives rotateX = -intensity and the bottom +intensity; the left edge gives rotateY = +intensity and the right -intensity |
| HoverCard.TiltCard.constructor | src/components/shared/HoverCard.tsx:52-63 | the intensity defaults to 10; all five display values start at 0 |
| HoverCard.TiltCard.HandleMouseMove | src/components/shared/HoverCard.tsx:65-87 | with no attached card nothing changes; otherwise the angles are the tilt of the pointer relative to the card, the highlight follows the pointer, and its opacity becomes 1 |
| HoverCard.TiltCard.HandleMouseLeave | src/components/shared/HoverCard.tsx:89-93 | both angles and the highlight opacity become 0; the highlight position is kept |

## Behaviour of the particle field worth noting

- **Positions can leave the canvas for a frame.**
  - The update reflects a speed after the move and never clamps the
    position, so a coordinate can lie up to one speed outside [0, width] or
    [0, height] for a frame (`AnimatedBackground.OvershootsForOneFrame`).
  - The invariant kept from frame to frame is `NearAxis`, inside `InField`:
    at most one speed outside the canvas, and heading back when outside.
- **Lines are measured between a moved and an unmoved particle.**
  - Particle i is moved before it is compared with the later particles j,
    which have not moved yet in this frame (`FrameLinesUpTo`).
  - So two particles 100 apart that both move away from each other are
    joined at distance 100.25 (`AnimatedBackground.TwoParticleFrame`), with
    an opacity of (1 - 100.25/150) · 0.15, slightly below the 0.05 of
    distance 100.

## Left out

- **Drawing calls.** `clearRect`, `arc`, `fill`, `stroke` and `lineWidth` are
  not modelled. A frame returns the circles and lines it would draw. The
  `rgba(...)` style strings are not built from them.
- **Rendering libraries.** Styled-components CSS, JSX trees, framer-motion
  variants and the recharts charts are library calls with no logic of their
  own.
- **The animation loop.** The `requestAnimationFrame` loop is not modelled;
  each frame is one call of `ParticleCanvas.DrawParticles`.
  - The source never cancels this loop. Its cleanup only removes the resize
    listener.
  - So when `particleCount` or `particleColor` change, the effect runs
    again and starts a second loop beside the first.
  - The model provides no teardown and does not capture the doubled loops.
- **A missing canvas or 2-D context.** With either missing, the effect returns
  early. The model assumes both exist.
- **Host scheduling.** Timers, intervals, the resize listener and the
  intersection observer become explicit method calls, and their delays
  (66, 333, 3333 and 5000 ms) are not modelled.
- **Randomness.** `Math.random()` results are parameters in [0, 1).
- **The leaf sway.** Each leaf's random left-or-right sway in its animation
  variants is presentation and is left out.
- **Square root.** `Math.sqrt` is avoided. A line records the squared
  distance, and the alpha is stated for the distance whose square it is.
- **Floating point.** IEEE rounding, NaN and infinities are not modelled;
  real arithmetic is exact.
- **Number formatting.** A leaf's `left` is kept as the percentage number,
  not as the formatted string with "%".
- **SplashScreen re-runs.** The effect re-runs when `onAnimationComplete`
  changes; this is not modelled.
- **SkillsDashboard state.** The `windowWidth` and `containerWidth` state
  and their resize listener are left out. The helpers take the width as a
  parameter.
- **Static content.** The static radar and statistics data are left out.
- **The browser's form validation.** The `required` and `type="email"`
  checks can block a submit before `handleSubmit` runs.
  `Contact.ContactForm.HandleSubmit` accepts any form.
- **`preventDefault` and the console.** The submit event's `preventDefault`
  and the console logging in Contact and SplashScreen are left out.
- **Header navigation.** Router navigation and `window.scrollTo` are left
  out. `Header.MobileMenu.HandleLogoClick` returns a scroll-to-top request
  instead of scrolling.
- Header.MobileMenu.ToggleMenu: reads the current flag. The source's
  `setIsMenuOpen(!isMenuOpen)` reads the value captured at render time, so two
  toggles handled before a re-render would both set the same value.
- **Icon lookup.** `tech in techIconMap` is JavaScript's `in`, which also
  sees inherited members such as "toString". The model looks up the table's
  own keys only. No tag in the data is such a name.
- **The blog animation hooks.** The four hooks are indexed by position, so a
  fifth regular post would make the lookup undefined and the render throw.
  The model proves that the shipped data has four regular posts
  (`DataBlog.BlogDataPartition`). It does not model the failure.
- HoverCard.TiltCard.HandleMouseMove: requires a card of positive width and
  height when one is attached. The source divides by half the width and half
  the height without a guard, which in JavaScript yields NaN or an infinite
  angle for an empty card.
- **The attachment flag.** In `ScrollAnimation.ScrollReveal` and
  `HoverCard.TiltCard`, whether an element is attached is fixed at
  construction. React's assignment of `ref.current` during commit is left
  out.
- **Observer options.** The threshold and root margin are stored, but
  their geometric meaning (how much of the element must be visible) belongs
  to the browser and is left out.
- AnimatedText.RenderSpans: a span's characters are Dafny characters, that
  is Unicode scalar values, while `word.split('')` splits into UTF-16 code
  units. A character outside the Basic Multilingual Plane, such as an emoji,
  is one span in the model and two spans, each half of a surrogate pair, in
  the source.
