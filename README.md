# Portfolio site: particle field, quiz and certificate filter

This project models, in Dafny, the three parts of the portfolio site that
carry logic rather than markup:

- **The particle field** behind the hero heading (`ParticleBackground` in
  `src/components/HeroSection.tsx`), module `ParticleField` in
  `particles.dfy`. Fifty particles are created from random draws. Each
  animation tick moves every particle by its velocity. When the tentative
  coordinate leaves the viewport, the velocity component is reversed and the
  coordinate jumps to the opposite edge. A line is drawn between every pair
  of particles closer than 100, and its opacity falls off linearly with the
  distance. Creation is a loop that appends to a sequence. The step is a
  method that updates an array of particle records in place. The lines are
  recursive functions that mirror the source's `map`/`slice`/`filter`.
- **The quiz** (`QuizSection` in `src/components/QuizSection.tsx`), module
  `Quiz` in `quiz.dfy`. It is a class whose fields are the component's state
  variables. Its methods are the handlers: choose an option, press Next, the
  end of the two-second feedback delay, restart, and the fun-mode switch. A
  ghost field counts the Next presses since the last restart. The object
  invariant `Valid()` keeps the question index in range and the selection a
  valid option. It also keeps the score at most the number of presses, and so
  at most the number of questions. The results card's percentage and message
  tier are pure functions.
- **The certificate list** (`src/components/CertificatesSection.tsx`), module
  `Certificates` in `certificates.dfy`. The badges are "All" followed by the
  distinct categories in order of first occurrence, as a JavaScript `Set`
  keeps them. The shown list is either the whole list or an order-preserving
  filter on the category.

`wrappers.dfy` holds the `Option` type used for `null`-able values.

Modelling choices:

- Coordinates, velocities and opacities are exact `real`s.
- `Math.random()` is an input sequence of draws in [0, 1). The draws are
  consumed six per particle, in the order the object literal calls it: x, y,
  size, vx, vy, opacity.
- `window.innerWidth` and `window.innerHeight` are the parameters `W` and
  `H`, assumed non-negative.
- There is no square root. Whether two particles are joined is decided on
  the squared distance (`< 100 * 100`); `DistanceBelowThreshold` proves that
  this is the same as comparing the distance with 100. A line's opacity
  `0.2 * (1 - d / 100)` is the ghost function `EdgeOpacity`. It takes the
  distance `d` as an argument, with `d >= 0` and `d * d` equal to the
  squared distance.

Facts about the code that the model keeps:

- The count is fixed at 50. It is not a parameter, and nothing treats a
  negative count or a zero viewport as an error.
- Sizes lie in [1, 5) and opacities in [0.1, 0.6), because a draw is in
  [0, 1).
- A line's opacity lies in (0, 0.2] and is 0.2 at distance 0.

If a certificate's category is literally "All", the code lists "All" twice.
Both "All" badges then show the whole list, so nothing can select that
category on its own (`AllListedTwice`).

## Model

| member | source | states |
|---|---|---|
| `ParticleField.ScaledDraw` | src/components/HeroSection.tsx:238-239 | a draw times a non-negative bound lies in [0, bound], and strictly below the bound when the bound is positive |
| `ParticleField.FromDraws` | src/components/HeroSection.tsx:237-244 | a particle made from six draws in [0, 1) has x in [0, W] (below W when W > 0), y likewise for H, size in [1, 5), vx and vy in [-0.25, 0.25), opacity in [0.1, 0.6) |
| `ParticleField.CreateParticles` | src/components/HeroSection.tsx:233-245 | creation yields exactly 50 particles; particle i is built from draws 6i to 6i+5; every particle lies in the creation ranges |
| `ParticleField.AxisStep` | src/components/HeroSection.tsx:254-265 | with a non-negative bound the new coordinate lies in [0, bound]; the velocity is negated when the tentative coordinate is below 0 or above the bound, and kept when it lies in [0, bound]; in that case the new coordinate is exactly the tentative one; below 0 it jumps to the bound, above the bound it jumps to 0 |
| `ParticleField.Stepped` | src/components/HeroSection.tsx:251-272 | after a step the particle lies in [0, W] x [0, H]; size and opacity are unchanged; x/vx and y/vy each follow `AxisStep` against W and H |
| `ParticleField.Step` | src/components/HeroSection.tsx:250-274 | the in-place step replaces every particle, in order, by its stepped value and leaves every particle inside the viewport; the array keeps its length |
| `ParticleField.RightEdgeScenario` | src/components/HeroSection.tsx:254-265 | x = 799, vx = 5, W = 800 steps to x = 0 and vx = -5; y, size and opacity are unchanged |
| `ParticleField.DistSq` | src/components/HeroSection.tsx:301-304 | the squared distance is never negative |
| `ParticleField.RowEdges` | src/components/HeroSection.tsx:298-324 | the lines from particle i to particles k, k+1, ... are exactly those to the near particles, each with i as first index, in increasing order of the second index |
| `ParticleField.EdgesFrom` | src/components/HeroSection.tsx:297-325 | the lines of rows i, i+1, ... are exactly the pairs (a, b) with a >= i, a < b and the particles near, in strictly increasing pair order |
| `ParticleField.Edges` | src/components/HeroSection.tsx:297-325 | there is a line for (i, k) if and only if i < k and the two particles are closer than 100; each line carries the end points of its particles; the pairs are strictly increasing, so each unordered pair occurs once |
| `ParticleField.DistanceBelowThreshold` | src/components/HeroSection.tsx:301-306 | for a distance d >= 0 with d*d equal to the squared distance, d < 100 if and only if the squared distance is below 10000, and d = 0 if and only if the squared distance is 0 |
| `ParticleField.LineOpacity` | src/components/HeroSection.tsx:306-307 | for a distance in [0, 100) the opacity lies in (0, 0.2] and is 0.2 exactly at distance 0 |
| `ParticleField.EdgeOpacity` | src/components/HeroSection.tsx:301-307 | the opacity of a drawn line lies in (0, 0.2] and is 0.2 exactly when the two particles coincide |
| `ParticleField.EdgesOpacityRange` | src/components/HeroSection.tsx:297-307 | every line of any field has an opacity in (0, 0.2] |
| `ParticleField.TwoParticleScenario` | src/components/HeroSection.tsx:297-325 | particles at (0, 0) and (50, 0) give exactly one line, (0, 1), with opacity 0.1 |
| `Quiz.SourceQuestions` | src/components/QuizSection.tsx:42-89 | the component asks three questions of four options each, and every correct answer is one of its question's options |
| `Quiz.Round` | src/components/QuizSection.tsx:269 | `Math.round` gives the integer n with n - 0.5 <= x < n + 0.5 |
| `Quiz.Percentage` | src/components/QuizSection.tsx:269 | the results percentage lies in [0, 100], is the rounded value of score/len*100, is 100 for a full score and 0 for no score |
| `Quiz.ResultTier` | src/components/QuizSection.tsx:272-282 | the tier is Perfect exactly when score == len, Good exactly when short of that but score >= len/2 (real division), and Keep learning otherwise |
| `Quiz.ResultTierMonotone` | src/components/QuizSection.tsx:272-282 | a higher score never gets a lower tier |
| `Quiz.QuizState.Valid` | src/components/QuizSection.tsx:35-40 | the state invariant implies score <= Next presses since restart <= number of questions |
| `Quiz.QuizState.constructor` | src/components/QuizSection.tsx:35-40 | the quiz starts on question 0 with no selection, score 0, professional mode, and neither feedback nor results shown |
| `Quiz.QuizState.SelectOption` | src/components/QuizSection.tsx:91-93 | choosing an option sets the selection to that index and changes nothing else |
| `Quiz.QuizState.PressNext` | src/components/QuizSection.tsx:95-101 | Next may be pressed only with an option selected and no feedback showing (the `disabled` rule at line 249); it raises the score by 1 exactly when the selection is the current question's correct answer, shows the feedback, and changes nothing else |
| `Quiz.QuizState.FeedbackElapsed` | src/components/QuizSection.tsx:104-114 | when the feedback delay ends the feedback is hidden; before the last question the index advances by one and the selection clears; at the last one the results are shown and the index and selection stay; the score is unchanged |
| `Quiz.QuizState.Reset` | src/components/QuizSection.tsx:117-123 | restarting restores question 0, no selection, score 0 and both flags false, and leaves fun mode as it was |
| `Quiz.QuizState.SetFunMode` | src/components/QuizSection.tsx:155-159 | the switch sets fun mode and changes nothing else |
| `Quiz.PerfectRun` | src/components/QuizSection.tsx:91-123 | answering the three questions correctly ends on the results with 100 percent and the perfect tier |
| `Certificates.FirstIndex` | src/components/CertificatesSection.tsx:62 | the first position of an element: it holds the element and no earlier position does |
| `Certificates.Distinct` | src/components/CertificatesSection.tsx:62 | `Array.from(new Set(s))` has no duplicates and holds exactly the elements of s |
| `Certificates.DistinctInFirstOccurrenceOrder` | src/components/CertificatesSection.tsx:62 | the distinct elements come in the order of their first occurrence in s |
| `Certificates.DistinctOfNoDuplicates` | src/components/CertificatesSection.tsx:62 | a list without repetition is unchanged by the dedup |
| `Certificates.CategoryList` | src/components/CertificatesSection.tsx:62 | the mapped list has one category per certificate, position by position |
| `Certificates.Categories` | src/components/CertificatesSection.tsx:60-63 | the first badge is "All"; every certificate's category is listed; the badges after "All" are exactly the certificates' categories, without duplicates |
| `Certificates.CategoriesInFirstOccurrenceOrder` | src/components/CertificatesSection.tsx:60-63 | the badges after "All" come in the order in which their categories first occur in the certificates |
| `Certificates.ByCategory` | src/components/CertificatesSection.tsx:68 | the category filter is an order-preserving subsequence, no longer than the list, of exactly the certificates with that category, each as often as in the list |
| `Certificates.Filtered` | src/components/CertificatesSection.tsx:65-68 | with filter "All" the shown list is the whole list; otherwise it is the order-preserving subsequence of the certificates with that category, each as often as in the list |
| `Certificates.ByCategoryIdempotent` | src/components/CertificatesSection.tsx:68 | filtering the filtered list again with the same category changes nothing |
| `Certificates.FilteredIdempotent` | src/components/CertificatesSection.tsx:65-68 | re-filtering the shown list with the same filter changes nothing |
| `Certificates.ListedCategoryNonEmpty` | src/components/CertificatesSection.tsx:60-68 | every listed badge other than "All" shows at least one certificate |
| `Certificates.AllListedTwice` | src/components/CertificatesSection.tsx:60-67 | if some certificate's category is "All", "All" occurs exactly twice among the badges, and that filter shows the whole list |
| `Certificates.DefaultCategories` | src/components/CertificatesSection.tsx:21-63 | the default certificates give the badges All, Data Science, Machine Learning, Database, Programming |

## Left out

- Animation scheduling: `setInterval` every 50 ms and `clearInterval` on unmount. One tick is one call of `Step`, followed by `Edges` on the result.
- The quiz's `setTimeout` of 2000 ms: the callback body is the `FeedbackElapsed` transition. Its precondition `showFeedback` says that a delay is pending, which is true only after Next.
- React's `setState` batching and stale closures. The Next handler reads `score` from the last render, and the delayed callback reads `currentQuestion` from the moment Next was pressed. While feedback is showing, only the selection and the fun-mode switch can change, and neither feeds the captured values, so these equal the current state and the model reads the fields directly.
- Floating-point arithmetic, `Math.sqrt` and `Math.pow`: the model uses exact reals, and the distance is an argument of `EdgeOpacity`.
- `Math.random()` and the window size are inputs, not modelled effects.
- Aliasing in the step: the source's `map` builds a new array but reverses `vx`/`vy` on the particle objects of the previous array. The model updates a single array in place, so that earlier array is not modelled.
- Rendering: all JSX and SVG, framer-motion animations, tooltips, social links and `copyEmail` in HeroSection.tsx, the fun-mode emoji, the "Next Question"/"Finish Quiz" label, and the wording of the three result messages. The `Tier` datatype stands for the wording.
- Edge keys `${i}-${i + j + 1}`: they are the `from` and `to` fields of `Edge`.
- The certificate `filter` state: a badge click replaces it, so it is the `filter` argument of `Filtered`.
- `SelectOption` and `PressNext` require what their only callers guarantee. An option is clicked only among the current question's rendered options. The Next button is rendered only on the question card and is disabled unless an option is selected and no feedback is showing.
- `SelectOption` and `Reset` are more general than the interface: `SelectOption` also accepts a call while the results show, and `Reset` also accepts one while feedback shows. The options exist only on the question card and "Try Again" only on the results card, so neither call is reachable; both keep `Valid()` all the same.
- src/components/home.tsx, ContactSection.tsx, SkillsSection.tsx and ProjectsSection.tsx are not part of this model. They hold browser I/O, clipboard writes, timers and constant data with rendering.
