# Portfolio site: the interactive core

A model, in Dafny, of the behaviour of a single-page portfolio site (React and
TypeScript). These parts are modelled:

- **Page shell** (`App`). The navigation highlight and `scrollToSection` are
  modelled. So is the scroll spy, which walks the sections in order and stops at
  the hero near the top or at the first section that straddles the line 300 px
  from the top of the viewport.
- **Loading ritual** (`LoadingRitual`). This is a canvas of 2200 particles
  driven through a fixed timeline:
  - scan 1500 ms;
  - waking grid 1000 ms;
  - vortex 800 ms;
  - silhouette 1200 ms;
  - monogram 1200 ms;
  - charge 1800 ms;
  - explosion 800 ms.

  The model covers the particle class and its per-phase update, and the
  controller's `init`, `resize`, `initParticles`, both target generators, the
  frame loop, `transition` and `cleanup`.
- **FAQ section** (`FAQSection`). The single-open accordion closes on any click
  outside `#faq-container`. The "Pickel" mascot beside it has a mood, a caption,
  a tooltip and a blink, each decided by the same priority of its flags.
- **Custom cursor** (`CustomCursor`). The dot changes type with what it
  hovers: link or button, text, image, draggable. It shrinks while the button is
  held, and a ring trails it.
- **Living cursor** (`LivingCursor`). The arrow turns to face the pointer's
  velocity, and it accumulates its rotation so that it never swings more than
  half a turn. Over an interactive element it is pulled halfway to that
  element's centre and snaps upright to the nearest whole turn. A double click
  spins it three turns.
- **Work grid** (`Portfolio`, `PortfolioProjects`). The constant project list
  and the category filter are modelled, along with the link buttons of each
  card and the alternating parallax direction.
- **Split text** (`SplitText`). The headline is split into words at single
  spaces and into one span per character. The model covers the per-variant
  stagger and the minimal variant's alternating slide direction.
- **Floating scrollbar** (`FloatingScrollbar`). The bar's position is
  proportional to the scroll offset. It shows while scrolling, and a single idle
  timer hides it 600 ms after the scrolling stops.

Two shared modules support them. `Common` holds Option, points and rectangles.
`Dom` holds elements, selector lists, `closest`, `getAttribute`, `trim` and
`substring`.

Where the source updates state step by step, the model uses classes with
`modifies` clauses: the controller, the particles, the window's listeners, the
cursors, the accordion, the mascot, the scrollbar and the shell. Each of their
methods is proved against a function of the old state. The pure parts are
functions with lemmas.

Randomness, `Date.now`, `performance.now`, trigonometry, the pixel buffer of the
rendered monogram and the DOM queries become parameters of the operations that
use them. A timer or an event handler is a method that the environment calls.

## Model

| member | source | states |
|---|---|---|
| App.TargetId | App.tsx:21 | The hero scrolls to the element `root`; every other section scrolls to the element whose id is its enum value (types.ts). |
| App.TargetIdInjective | App.tsx:20-26 | Different sections scroll to different elements. |
| App.SpyPickIsFirst | App.tsx:38-59 | The spy picks a section iff some section of the list qualifies. The hero qualifies below 300 px of scroll. Any other section qualifies when its element exists and straddles the 300 px line. The pick is the first section that qualifies. |
| App.SpyNearTop | App.tsx:42-47 | Below 300 px of scroll the spy always selects the hero, whatever the other sections' rectangles are. |
| App.Shell.constructor | App.tsx:18 | The highlight starts on the hero. |
| App.Shell.ScrollToSection | App.tsx:20-26 | The highlight moves to the section iff its target element is on the page; otherwise it does not change. |
| App.Shell.HandleScroll | App.tsx:38-59 | The loop leaves the highlight on the spy's pick, or unchanged when nothing qualifies. |
| Common.Rect.Centre | components/Cursor.tsx:186-188 | The centre of a bounding rectangle is equidistant from its left and right edges, and from its top and bottom edges. |
| Dom.FirstMatch | components/Cursor.tsx:84 | The position found on the path is the first element that matches any selector of the list; no element before it matches. |
| Dom.Closest | components/CustomCursor.tsx:36-37 | `closest` succeeds iff some element on the path from the target up matches. Its answer is an element of the path that matches. |
| Dom.ClosestNoFurther | components/FAQSection.tsx:308 | An element on the path that matches makes `closest` succeed, and the answer is no further up than that element. |
| Dom.GetAttribute | components/Cursor.tsx:92 | The result is the attribute's value when the attribute is present, and null otherwise. |
| Dom.TrimStart | components/CustomCursor.tsx:38 | Only leading ECMAScript whitespace is removed, and the result starts with a non-whitespace character or is empty. |
| Dom.TrimEnd | components/CustomCursor.tsx:38 | Only trailing whitespace is removed, and the result ends with a non-whitespace character or is empty. |
| Dom.TrimIsSlice | components/Cursor.tsx:95 | `trim()` is the slice of the text between its leading and trailing whitespace. |
| Dom.TrimIdempotent | components/Cursor.tsx:95 | Trimming twice is trimming once. |
| Dom.Prefix | components/CustomCursor.tsx:38 | `substring(0, n)` is the prefix of length min(n, length). |
| CustomCursor.HoverLabel | components/CustomCursor.tsx:38 | The label is never empty. It is the aria-label when that is non-empty. Otherwise it is the first 20 characters of the trimmed text when that is non-empty, and "View" as the last resort. |
| CustomCursor.Classify | components/CustomCursor.tsx:32-63 | Each cursor type is chosen iff every earlier class in the order link/button, text, image, draggable fails to match and its own class matches. The click type is never chosen. Only the hover type carries a label, and that label is the hovered element's. |
| CustomCursor.Pressed | components/CustomCursor.tsx:65-67 | Mouse down makes the type `click` and keeps the label. |
| CustomCursor.Released | components/CustomCursor.tsx:69-74 | Mouse up turns `click` into `default` and leaves any other state as it is. |
| CustomCursor.PressRelease | components/CustomCursor.tsx:65-74 | A press then a release ends at the default type with the old label, and a second release changes nothing. |
| CustomCursor.CursorSize | components/CustomCursor.tsx:93-108 | Every size is positive. The cursor is square iff it is not the text caret. |
| CustomCursor.PressShrinks | components/CustomCursor.tsx:93-108 | Pressing shrinks any round cursor, and releasing grows it back above the pressed size. |
| CustomCursor.TrailSize | components/CustomCursor.tsx:190-192 | The trailing ring is the cursor's size plus 20 in each direction. |
| CustomCursor.TrailOpacity | components/CustomCursor.tsx:193 | The ring is invisible iff the cursor is hidden or is a text caret; otherwise its opacity is 0.3. |
| CustomCursor.LabelShown | components/CustomCursor.tsx:170 | The label bubble is shown only for the hover type. |
| CustomCursor.ClassifiedLabelShown | components/CustomCursor.tsx:38-39 | After a mouseover, the label is shown iff the type is hover, because a hover label is never empty. |
| CustomCursor.Cursor.constructor | components/CustomCursor.tsx:10-15 | The cursor starts as the default type with no label, hidden, at (-100, -100). |
| CustomCursor.Cursor.MoveCursor | components/CustomCursor.tsx:22-26 | The position becomes the pointer's, the cursor becomes visible, and its state is kept. |
| CustomCursor.Cursor.MouseEnter | components/CustomCursor.tsx:28 | The cursor becomes visible; nothing else changes. |
| CustomCursor.Cursor.MouseLeave | components/CustomCursor.tsx:29 | The cursor becomes hidden; nothing else changes. |
| CustomCursor.Cursor.MouseOver | components/CustomCursor.tsx:32-63 | The state becomes the classification of the hovered path; visibility and position are kept. |
| CustomCursor.Cursor.MouseDown | components/CustomCursor.tsx:65-67 | The state becomes the pressed state. |
| CustomCursor.Cursor.MouseUp | components/CustomCursor.tsx:69-74 | The state becomes the released state. |
| LivingCursor.InteractiveElement | components/Cursor.tsx:84-85 | An interactive element exists iff a link, button or magnetic element encloses the target, or the target's cursor is a pointer. The enclosing element is preferred. |
| LivingCursor.HoverText | components/Cursor.tsx:92-97 | The bubble text is never empty. It is `data-cursor-text` when that is non-empty. Otherwise it is the trimmed text iff that is non-empty and shorter than 20 characters, and "Click" in every other case. |
| LivingCursor.Classify | components/Cursor.tsx:71-128 | An interactive element gives magnetic mode, its bubble text and scale 1.2. Otherwise a certificate gives "Certificate" and 1.3, then an image gives "View" and 1.5, and anything else gives no text and 1. |
| LivingCursor.ClassifyScale | components/Cursor.tsx:99-127 | The cursor enlarges iff it shows a bubble text, and never beyond 1.5. |
| LivingCursor.ReleaseScale | components/Cursor.tsx:136-144 | Mouse up restores scale 1.2 iff the cursor is magnetic, and 1 otherwise. |
| LivingCursor.ReleaseAfterHover | components/Cursor.tsx:136-144 | Releasing over an interactive element restores its hover scale. Releasing over a certificate or image restores a smaller scale than their hover scale. |
| LivingCursor.MagneticTarget | components/Cursor.tsx:185-194 | The magnetic pull with factor 0.5 puts the cursor at the midpoint of the pointer and the element's centre. |
| LivingCursor.VelocityAfter | components/Cursor.tsx:162-175 | When time has passed, the velocity times the elapsed milliseconds is the displacement. Otherwise the old velocity is kept. |
| LivingCursor.WrapDiff | components/Cursor.tsx:213-215 | The wrapped angle difference differs from the raw one by at most one full turn. For headings within a turn of each other it lies within half a turn. |
| LivingCursor.Round | components/Cursor.tsx:229 | `Math.round` gives the integer within half of its argument, with halves rounded up. |
| LivingCursor.NearestTurns | components/Cursor.tsx:229 | The snap target lies within half a turn of the accumulated rotation. |
| LivingCursor.NearestTurnsIsNearest | components/Cursor.tsx:229 | No whole number of turns is closer to the rotation than the snap target. |
| LivingCursor.Squash | components/Cursor.tsx:222 | The squash factor stays within [0.9, 1]. For speeds up to 2 it equals 1 - 0.05 × speed. |
| LivingCursor.TurnStepBounded | components/Cursor.tsx:209-219 | A turn step never swings the arrow by more than half a turn, and it differs from the raw heading change by a whole turn or none. |
| LivingCursor.Cursor.constructor | components/Cursor.tsx:34-55 | The cursor starts non-magnetic and not clicking, with no text, velocity or rotation. Its spring targets start at 0, with the scale target at 1. |
| LivingCursor.Cursor.DoubleClick | components/Cursor.tsx:61-68 | Three full turns are added to the accumulated rotation, the rotation spring follows, and the scale hops to 1.2; the invariant is kept. Every other field stays as it was. |
| LivingCursor.Cursor.ScaleTimeout | components/Cursor.tsx:67 | The pending timer resets the scale to 1. Every other field stays as it was. |
| LivingCursor.Cursor.MouseOver | components/Cursor.tsx:71-128 | The magnetic element, the bubble text and the scale become the classification of the hovered path. The cursor is magnetic exactly while it holds an element. The rotation, clicking, velocity, positions, time and spring targets stay as they were. |
| LivingCursor.Cursor.MouseDown | components/Cursor.tsx:131-134 | Clicking starts and the scale target is 0.6. Every other field stays as it was. |
| LivingCursor.Cursor.MouseUp | components/Cursor.tsx:136-144 | Clicking stops and the scale returns to the release scale for the current magnetic mode. Every other field stays as it was. |
| LivingCursor.Cursor.UpdateVelocity | components/Cursor.tsx:162-175 | The velocity becomes the one `VelocityAfter` gives, and the last position and time become the current ones; nothing else changes. |
| LivingCursor.Cursor.MouseMove | components/Cursor.tsx:177-234 | The cursor is pulled to the magnetic target, or follows the pointer; the bubble follows the pointer. When the cursor moves fast and is not magnetic, it turns by the wrapped difference and squashes. When magnetic, it snaps to the nearest whole turn. The arrow still points along its last heading plus whole turns. |
| FAQSection.Toggled | components/FAQSection.tsx:380 | The clicked entry opens iff it was not the open one, and everything closes iff it was. |
| FAQSection.ToggleTwice | components/FAQSection.tsx:380 | Two clicks on an entry leave it open only if it was open before, and otherwise close everything. |
| FAQSection.OpenEntries | components/FAQSection.tsx:366-367 | At most one entry is rendered open: the one whose index is `activeIndex`. |
| FAQSection.AfterDocumentClick | components/FAQSection.tsx:307-310 | A click on an element outside `#faq-container` closes the accordion. A click inside it, or on a non-element, leaves the accordion as it is. |
| FAQSection.EntryClickSurvivesListener | components/FAQSection.tsx:307-310 | A click on an entry inside the container also reaches the document listener, and the toggle's result stands. |
| FAQSection.Accordion.constructor | components/FAQSection.tsx:303 | The accordion starts closed. |
| FAQSection.Accordion.MascotActive | components/FAQSection.tsx:354 | The mascot is active iff exactly one entry is open. |
| FAQSection.Accordion.ClickEntry | components/FAQSection.tsx:367-380 | `activeIndex` becomes the toggled index. |
| FAQSection.Accordion.DocumentClick | components/FAQSection.tsx:307-310 | `activeIndex` becomes what the click-outside listener leaves. |
| FAQSection.CurrentMood | components/FAQSection.tsx:94 | The mood's flag is raised, and no mood of higher priority (annoyed, active, hover, idle) has its flag raised. |
| FAQSection.CaptionFollowsMood | components/FAQSection.tsx:294 | The caption follows the same priority as the mood, and different moods show different captions. |
| FAQSection.CaptionOpacity | components/FAQSection.tsx:289 | The caption is at full opacity iff the mood is not idle, and at half opacity iff it is idle. |
| FAQSection.TooltipShown | components/FAQSection.tsx:110 | The tooltip shows iff the mascot is hovered and its mood is not annoyed, whatever the accordion does. |
| FAQSection.PickelMascot.constructor | components/FAQSection.tsx:50-52 | The mascot starts not hovered, not annoyed and not blinking. |
| FAQSection.PickelMascot.MouseEnter | components/FAQSection.tsx:99 | The mascot becomes hovered; nothing else changes. |
| FAQSection.PickelMascot.MouseLeave | components/FAQSection.tsx:100 | The mascot stops being hovered; nothing else changes. |
| FAQSection.PickelMascot.DoubleClick | components/FAQSection.tsx:88-91 | The mascot becomes annoyed; nothing else changes. |
| FAQSection.PickelMascot.AnnoyTimeout | components/FAQSection.tsx:90 | The 2000 ms reset clears the annoyance. |
| FAQSection.PickelMascot.BlinkTick | components/FAQSection.tsx:77-83 | The interval closes the eyes iff the mascot is neither annoyed nor active; otherwise the eyes are left as they were. |
| FAQSection.PickelMascot.BlinkTimeout | components/FAQSection.tsx:81 | The 150 ms reset reopens the eyes. |
| FAQSection.EyeHeight | components/FAQSection.tsx:214-218 | An eye is always visible, and is flattened iff the mascot blinks. |
| FloatingScrollbar.TranslateEnds | components/FloatingScrollbar.tsx:24-31 | At the top of the page the bar sits at 20 px. At the bottom it sits one margin and one bar (80 px) above the window's lower edge. |
| FloatingScrollbar.ScaleRange | components/FloatingScrollbar.tsx:29-30 | A fraction of the room left for the bar lies between 0 and that room, in the fractions' order when the room is positive and in reverse order when it is negative. |
| FloatingScrollbar.TranslateBounds | components/FloatingScrollbar.tsx:21-31 | Within the scroll range the bar stays between its two end positions. In a window at least 100 px tall it never moves up as the page scrolls down. In a shorter one the room left for the bar is negative, and the bar climbs from the top margin as the page scrolls down. |
| FloatingScrollbar.AtMostOneTimer | components/FloatingScrollbar.tsx:37-41 | Replacing the ref's timer on each scroll leaves at most one idle timer pending. |
| FloatingScrollbar.Scrollbar.constructor | components/FloatingScrollbar.tsx:5-6 | The bar starts transparent, with no transform and no timer. |
| FloatingScrollbar.Scrollbar.HandleScroll | components/FloatingScrollbar.tsx:9-42 | Without the bar element nothing changes. Otherwise the bar shows at 0.8. When the page can scroll, its transform is the proportional position, and the old idle timer is replaced by exactly one new one. |
| FloatingScrollbar.Scrollbar.IdleTimeout | components/FloatingScrollbar.tsx:39-41 | A pending idle timer fires, hides the bar and stops being pending. |
| FloatingScrollbar.Scrollbar.Unmount | components/FloatingScrollbar.tsx:50-54 | Unmounting leaves no idle timer pending; the rest of the bar's state stays as it was. |
| Portfolio.Filtered | components/Portfolio.tsx:139 | The filtered grid is no longer than the project list. |
| Portfolio.FilterMembership | components/Portfolio.tsx:139 | A project is shown iff it is in the list and is either under "All" or of the chosen category. |
| Portfolio.FilterAllIsIdentity | components/Portfolio.tsx:139 | The "All" filter shows the whole list unchanged. |
| Portfolio.FilterIsSubsequence | components/Portfolio.tsx:139 | Filtering keeps the projects' order: the result is a subsequence of the list. |
| Portfolio.FilterAppend | components/Portfolio.tsx:139 | Filtering a concatenation filters each part. |
| Portfolio.FilterAllPass | components/Portfolio.tsx:139 | A list whose every project passes is returned whole. |
| Portfolio.FilterNonePass | components/Portfolio.tsx:139 | A list in which no project passes gives an empty grid. |
| Portfolio.CategoryFiltersPartition | components/Portfolio.tsx:139 | The three category filters together show as many cards as the list holds. |
| Portfolio.SplitAtBoundary | components/Portfolio.tsx:139 | A list of development projects followed by design projects splits at the boundary under the two category filters, and the Strategy filter shows nothing. |
| Portfolio.FilterIdempotent | components/Portfolio.tsx:139 | Filtering the filtered grid again changes nothing. |
| Portfolio.CategoryFiltersDisjoint | components/Portfolio.tsx:139 | Two different category filters never show the same project. |
| Portfolio.Buttons | components/Portfolio.tsx:240-289 | A card shows the Live Demo, Code, View Design and Case Study buttons iff it has the matching link, always in that order. |
| Portfolio.ParallaxSpeed | components/Portfolio.tsx:199 | The parallax speed is 0.3 for even grid positions and -0.3 for odd ones. |
| Portfolio.ParallaxAlternates | components/Portfolio.tsx:199 | Neighbouring cards drift in opposite directions. |
| PortfolioProjects.AllProjects | components/Portfolio.tsx:20-134 | The list has nine projects, "1" to "9", with distinct ids (the grid's keys): four development projects first, then five design projects. |
| PortfolioProjects.AllProjectsSplit | components/Portfolio.tsx:137-139 | On the page's own list, "Development" shows the first four cards and "Design" the other five. A Strategy filter would show none. |
| SplitText.Words | components/SplitText.tsx:13 | `split(' ')` always gives at least one word. |
| SplitText.JoinWords | components/SplitText.tsx:13 | Joining the words with single spaces gives back the text. |
| SplitText.WordCount | components/SplitText.tsx:13 | There is one more word than there are spaces. |
| SplitText.WordsHaveNoSpace | components/SplitText.tsx:13 | No word contains a space. |
| SplitText.WordsOfJoin | components/SplitText.tsx:13 | Splitting a join of space-free words gives back the words. |
| SplitText.WordsOfWord | components/SplitText.tsx:13 | A space-free prefix becomes the first word of the split. |
| SplitText.Chars | components/SplitText.tsx:104 | `split('')` gives one single-character string per character of the word, in order (a character is a Unicode scalar here, see Left out). |
| SplitText.CharsSpellWord | components/SplitText.tsx:104-113 | A word's character spans, rendered in order, spell the word. |
| SplitText.WordSpans | components/SplitText.tsx:104-113 | Span `j` of a word holds character `j` and gets `custom = j`. |
| SplitText.Spans | components/SplitText.tsx:99-115 | There is one group of spans per word, and each group is that word's spans. |
| SplitText.MinimalHiddenY | components/SplitText.tsx:42-45 | A hidden character starts at "120%" iff its index is even, and at "-120%" otherwise. |
| SplitText.MinimalAlternates | components/SplitText.tsx:42-45 | Neighbouring characters of a word slide in from opposite sides, and every word's first character comes from below. |
| SplitText.Stagger | components/SplitText.tsx:16-88 | Every variant staggers its characters by a positive delay of at most 0.12 s. |
| SplitText.DelayChildren | components/SplitText.tsx:22 | The container, which is given no `custom`, delays its children by exactly `delay`. |
| SplitText.ContainerTarget | components/SplitText.tsx:97 | The container is driven to "visible" iff the trigger is set. |
| LoadingRitual.Next | components/LoadingRitual.tsx:249-294 | Each transition leads to the next phase of the timeline. |
| LoadingRitual.Duration | components/LoadingRitual.tsx:28-35 | Every phase lasts a positive number of milliseconds; the vortex's 800 is written into the loop (line 259). |
| LoadingRitual.Step | components/LoadingRitual.tsx:249-294 | A phase hands over to the next iff more than its duration has elapsed. Otherwise it stays, and the finished sequence stays finished. |
| LoadingRitual.RunInOrder | components/LoadingRitual.tsx:241-345 | Over any run of frames, phases are entered in timeline order, at most one per frame, and each phase passed lasted longer than its duration. |
| LoadingRitual.WholeSequenceTakesItsTime | components/LoadingRitual.tsx:28-35 | Reaching the end takes more than 8300 ms (the sum of the durations) and at least seven frames. |
| LoadingRitual.NewParticle | components/LoadingRitual.tsx:53-67 | A new particle rests on its drawn position, dim and invisible, with no symbol. |
| LoadingRitual.UpdateByPhase | components/LoadingRitual.tsx:69-117 | The scan hides a particle. The waking grid fades it in by 0.05 per frame up to full, dim and at size 1.5. The vortex shows it and aims it at the centre. The morphs make it bright, at 1.2 or 1.8. The explosion fades it by 0.05. Only the vortex changes targets, and no phase changes the symbol or the easing. |
| LoadingRitual.KindStaysBinary | components/LoadingRitual.tsx:46 | A particle's type stays 0 (dim) or 1 (bright). |
| LoadingRitual.ExplosionFades | components/LoadingRitual.tsx:109-116 | Each explosion frame removes 0.05 alpha, so a fully visible particle is gone after 20 frames. |
| LoadingRitual.GridWakeAlphaBounded | components/LoadingRitual.tsx:78 | While the grid wakes, alpha never decreases and never passes 1.05. |
| LoadingRitual.FramesKeepSymbol | components/LoadingRitual.tsx:69-117 | No frame changes a particle's symbol. |
| LoadingRitual.ScatteredHiddenInGridWake | components/LoadingRitual.tsx:304-310 | The randomly placed particles have no symbol, so they are never drawn while the grid wakes. |
| LoadingRitual.ExplosionHides | components/LoadingRitual.tsx:316-334 | Eighteen explosion frames after being at most fully visible, a particle is no longer drawn. |
| LoadingRitual.Particle.constructor | components/LoadingRitual.tsx:53-67 | The particle's fields are the new particle's. |
| LoadingRitual.Particle.Update | components/LoadingRitual.tsx:69-117 | The fields become the update of the old ones for the phase, the centre and the frame's random and trigonometric inputs. |
| LoadingRitual.Particle.Wake | components/LoadingRitual.tsx:75-80 | The fields become the waking grid's update of the old ones: jittered, faded in by 0.05 up to full, dim, size 1.5. |
| LoadingRitual.Particle.Swirl | components/LoadingRitual.tsx:81-93 | The fields become the vortex update of the old ones: the target becomes the centre, the swirl is added to the velocity before friction 0.94, the particle moves by its velocity, and it becomes fully visible. |
| LoadingRitual.Particle.Morph | components/LoadingRitual.tsx:94-101 | The fields become the morph update of the old ones: the particle eases towards its target, the wobble advances by 0.05, and it becomes bright, at size 1.2 or 1.8. |
| LoadingRitual.Particle.Gather | components/LoadingRitual.tsx:102-108 | The fields become the charge update of the old ones: the particle moves a fifth of the way to its target, plus the occasional spark. |
| LoadingRitual.Particle.Burst | components/LoadingRitual.tsx:109-116 | The fields become the explosion update of the old ones: the particle is flung from the centre at speed 20 and fades by 0.05. |
| LoadingRitual.GridCount | components/LoadingRitual.tsx:157-173 | The grid holds at most 2200 particles, and none when the window is narrower than one cell. |
| LoadingRitual.GridCellsDistinct | components/LoadingRitual.tsx:161-168 | No two grid particles share a cell, and each rests on its own position. |
| LoadingRitual.RowMajor | components/LoadingRitual.tsx:161-166 | The row-major count `r * cols + c` recovers column `c` and row `r`. |
| LoadingRitual.SilhouetteScale | components/LoadingRitual.tsx:183 | The silhouette scale is a quarter of the shorter side, so it is never negative. |
| LoadingRitual.SilhouetteShape | components/LoadingRitual.tsx:185-198 | Head targets are the drawn offset from a point half a scale above the centre. Body targets lie within 1.2 scales of the vertical axis, and between 0.4 and 1 scale below the centre. |
| LoadingRitual.Capped | components/LoadingRitual.tsx:206-207 | The monogram canvas is at most the window's size and at most 2000 px. A side is 0 exactly when the window's side is 0, and then reading the canvas's pixels throws (see `GenerateMonogramTargets`). |
| LoadingRitual.RowHitsMembership | components/LoadingRitual.tsx:222-226 | A sample is kept from a row iff it is in that row, at a multiple of 6 within the scanned columns, and lit. |
| LoadingRitual.HitsMembership | components/LoadingRitual.tsx:221-227 | A sample is kept iff both coordinates are multiples of 6 within the scanned rows and the canvas width, and it is lit. |
| LoadingRitual.MonogramSamples | components/LoadingRitual.tsx:218-228 | The valid pixels are exactly the samples on the 6-pixel lattice of the capped canvas whose red channel is above 128. |
| LoadingRitual.FullBufferLit | components/LoadingRitual.tsx:218-224 | In the buffer of the whole canvas, every sampled index lies inside the buffer, so a pixel is lit iff its red byte is above 128. |
| LoadingRitual.Aimed | components/LoadingRitual.tsx:261-278 | Handing out targets never moves a particle, and never changes its visibility or type. |
| LoadingRitual.Scaled | components/LoadingRitual.tsx:225 | Scaling keeps one point per sample. |
| LoadingRitual.SampleRow | components/LoadingRitual.tsx:222-227 | On a canvas with both sides positive (the only one the loops reach), the inner loop collects, left to right, the scaled lit samples of one row. |
| LoadingRitual.SamplesCount | components/LoadingRitual.tsx:221-222 | The `+= 6` loops visit exactly the samples below the canvas side. |
| LoadingRitual.HandOut | components/LoadingRitual.tsx:230-238 | There are 2200 targets. Target `i` is valid pixel `i mod n`, or the window's centre when there are none. |
| LoadingRitual.ScaleSampleAt | components/LoadingRitual.tsx:225 | A sample is scaled back to the window by the window-to-canvas ratio on each axis. |
| LoadingRitual.SampleMonogram | components/LoadingRitual.tsx:219-228 | On a canvas with both sides positive, the outer loop collects all lit samples, row by row, each scaled to the window. |
| LoadingRitual.ScaledSnoc | components/LoadingRitual.tsx:225 | Appending a sample then scaling is scaling then appending. |
| LoadingRitual.ScaledAppend | components/LoadingRitual.tsx:225 | Scaling distributes over concatenation. |
| LoadingRitual.NewGridParticle | components/LoadingRitual.tsx:164-169 | A fresh particle is placed at the centre of cell (c, r) with its drawn symbol. |
| LoadingRitual.MakeGrid | components/LoadingRitual.tsx:159-173 | The grid loops make min(rows × cols, 2200) distinct fresh particles. Particle `k` sits in row-major cell `k`. |
| LoadingRitual.MakeScattered | components/LoadingRitual.tsx:174-176 | The filling loop makes the requested number of distinct fresh particles, each as its constructor leaves it. |
| LoadingRitual.Window.constructor | components/LoadingRitual.tsx:137 | The window starts with no resize listener. |
| LoadingRitual.Window.Bind | components/LoadingRitual.tsx:137 | `bind` makes a function different from every one made before, and from every registered listener. |
| LoadingRitual.Window.AddResizeListener | components/LoadingRitual.tsx:137 | The function is added to the registered listeners. |
| LoadingRitual.Window.RemoveResizeListener | components/LoadingRitual.tsx:422 | Only that very function is removed. |
| LoadingRitual.StaleRemovalKeepsListener | components/LoadingRitual.tsx:422 | Removing by a function made after the registered one leaves the registered one in place. |
| LoadingRitual.RitualController.Resize | components/LoadingRitual.tsx:146-153 | The size becomes the window's inner size; nothing else of the controller changes. |
| LoadingRitual.RitualController.GenerateSilhouetteTargets | components/LoadingRitual.tsx:179-200 | There are 2200 targets, and target `i` is the silhouette point of draw `i`. |
| LoadingRitual.RitualController.GenerateMonogramTargets | components/LoadingRitual.tsx:202-239 | Without a 2D context there are no targets and nothing throws. With one, `getImageData` throws an `IndexSizeError` exactly when a side of the window is 0, and no targets are returned. Otherwise there are 2200, and target `i` is the monogram target `i` of the scaled lit samples. |
| LoadingRitual.RitualController.InitParticles | components/LoadingRitual.tsx:155-177 | The list grows to at least 2200 particles, every new one distinct and fresh. New particle `k` is grid particle `k` while grid cells remain, and a randomly placed one after them. |
| LoadingRitual.RitualController.AimAtSilhouette | components/LoadingRitual.tsx:262-267 | Every particle takes the silhouette target of its index; nothing else changes. |
| LoadingRitual.RitualController.AimAtMonogram | components/LoadingRitual.tsx:271-278 | It throws iff there are no monogram targets, and then changes nothing. Otherwise particle `i` takes the target `picks[i]` places further on, wrapping round, and its easing becomes 0.05. |
| LoadingRitual.RitualController.UpdateParticles | components/LoadingRitual.tsx:297-299 | Every particle is updated once in the phase. |
| LoadingRitual.RitualController.MoveParticles | components/LoadingRitual.tsx:296-299 | No particle moves in the scan; in every other phase each is updated around the window's centre. |
| LoadingRitual.RitualController.Transition | components/LoadingRitual.tsx:342-345 | The phase and its start time change; nothing else does. |
| LoadingRitual.RitualController.SwitchPhase | components/LoadingRitual.tsx:249-294 | The clock takes one timeline step. The glow is lit during the waking grid. The morph phases hand out their targets in their first 20 ms. The frame throws iff a monogram frame finds no targets. It finishes iff the explosion is over. |
| LoadingRitual.RitualController.Loop | components/LoadingRitual.tsx:241-340 | The switch runs, then the particle updates of the new phase, then the next frame is requested. No frame is requested after the finish or a throw, and then no particle moves. The particle lists and targets are kept. |
| LoadingRitual.RitualController.CleanupAsWritten | components/LoadingRitual.tsx:421-424 | The pending frame is cancelled, but the resize listener set is unchanged, so the listener added at start-up stays. One more bound function has been made, and the rest of the controller's state stays as it was. |
| LoadingRitual.RitualController.Cleanup | components/LoadingRitual.tsx:421-424 | The pending frame is cancelled and the listener added at start-up is removed. No function is bound, and the rest of the controller's state stays as it was. |
| LoadingRitual.RitualController.Prepare | components/LoadingRitual.tsx:136-139 | The controller sizes to the window, registers a newly bound `resize` and stores 2200 silhouette targets. Building the monogram's targets then throws exactly when there is a 2D context and a side of the window is 0, leaving them unset. Otherwise there are none without a context, and with one they are the 2200 sampled targets: target `i` is the monogram target `i` of the scaled lit samples of `imageData`. |
| LoadingRitual.RitualController.Start | components/LoadingRitual.tsx:141-143 | The clock starts at `now` in the scan, and the first frame requests the next one without moving any particle. |
| LoadingRitual.RitualController.Launch | components/LoadingRitual.tsx:140-143 | Once both target lists are built, 2200 particles are laid out as `initParticles` places them, the clock runs from `now` in the scan, and a frame is pending. |
| LoadingRitual.RitualController.Init | components/LoadingRitual.tsx:135-144 | `init` registers the start-up listener and builds the silhouette targets in every case. It throws exactly when there is a 2D context and a side of the window is 0, and then there are no particles, the clock is not started and no frame is pending. Otherwise there are 2200 particles laid out as `initParticles` places them, the monogram targets are the sampled ones (or none without a context), the clock runs from `now` in the scan, and a frame is pending. |
| LoadingRitual.RitualController.constructor | components/LoadingRitual.tsx:131-133 | The constructor runs `init`. When `init` throws, no frame is ever pending, so the ritual never finishes, and the resize listener stays registered. Otherwise it gives `init`'s guarantees. |
| LoadingRitual.FirstFrameStill | components/LoadingRitual.tsx:143 | The frame run at start-up, 0 ms into the scan, leaves every particle as it is. |

## Left out

- Drawing is not modelled: the canvas and the scan line, charge ring and explosion renderers, the SVG mascot, and every `motion` animation, spring and transition. Only the values the code computes for them are modelled.
- `Math.random`, `Math.atan2`, `Math.sin`, `Math.cos`, `Math.sqrt` and the clocks (`Date.now`, `performance.now`, the frame timestamp) are left out. Their values are parameters of the operations that use them: `ParticleDraw`, `SilhouetteDraw`, `Motion`, `picks`, `speed`, `heading` and `now`.
- The monogram's pixels are an input `data` (the `getImageData` buffer). Rendering "AD" in a font is not modelled.
- Timers and listeners are left out as mechanisms. A timer firing, or an event reaching a handler, is a method the environment calls (`ScaleTimeout`, `AnnoyTimeout`, `BlinkTick`, `BlinkTimeout`, `IdleTimeout`). The `requestAnimationFrame` throttle of the living cursor's mouse move is not modelled.
- React's asynchronous state updates and stale closures are left out. Handlers read the latest state: `isMagnetic` in the living cursor and `isVisible` in the custom cursor are the current field values.
- LoadingRitual.RitualController.Resize: the canvas backing store and the `devicePixelRatio` scaling are not modelled.
- The overlay fade and the `onComplete` call one second after `finish` are modelled only as the `finished` flag. The glow's opacity is modelled only as `glowLit`.
- Numbers are exact reals and integers, not IEEE doubles. Rounding in the particle and scrollbar arithmetic is not captured.
- String lengths and `split('')` count characters (Unicode scalars), not UTF-16 code units: the 20-character limits, `substring` and the character spans. The two agree on the page's own texts, which are ASCII.
- SplitText.Chars: gives one span per Unicode character, whereas `split('')` splits into UTF-16 code units. A character outside the Basic Multilingual Plane gives two spans on the page (each a lone surrogate) and one here, so the later spans' `custom` indices in `WordSpans` differ by one.
- The `IndexSizeError` that `init` throws on a window with a side of 0 is modelled as the `threw` result. What React then does with an error thrown from an effect is not modelled.
- `getComputedStyle` is read as the element's `pointer` flag. The try/catch around it is not modelled.
- The mascot's mouse-tracking eyes and tooltip position (`useTransform`, springs) are not modelled.
- Project descriptions, images and link addresses are content. A link is modelled only as present or absent.
- The `Contact` form and the other sections of the page are not part of this model.
- SplitText.Stagger: states only the bounds of the stagger per variant, not each variant's value (0.12, 0.05, 0.05, 0.03).
- The vortex's two velocity additions (lines 85-88) are taken as one `swirl` input. The model adds it to the velocity before friction, which is the same sum.
- When the monogram has no targets, a monogram frame in its first 20 ms reads a property of `undefined` and throws. The model reports this as `FrameOutcome.Threw`, requests no further frame, and leaves the phase unchanged.
- The targets are handed out only on frames less than 20 ms into the silhouette or monogram phase. A frame rate below 50 fps can miss that window, and then the particles keep their earlier targets; the model carries this as written.
- LivingCursor.ReleaseAfterHover states the behaviour as written: releasing the button over a certificate or an image restores scale 1, not their hover scale.

## Findings

| source | as written | input that shows it | evidently intended | confidence | as-written member | corrected member |
|---|---|---|---|---|---|---|
| components/LoadingRitual.tsx:421-424 | `cleanup` removes `this.resize.bind(this)`, a function newly made by `bind`, while `init` (line 137) registered a different bound function. The removal does nothing and the resize listener outlives the component. | Any mount followed by an unmount: the listener registered at line 137 is still registered after `cleanup`. | Keep the bound function made at `init` and remove that one, so no resize listener remains. | not executed | LoadingRitual.RitualController.CleanupAsWritten | LoadingRitual.RitualController.Cleanup |
