# Portfolio site rules, modelled in Dafny

A personal portfolio single-page application contains a few small rules that have precise
behaviour. This project models them and proves their properties:

- **Active-section tracker** (`ScrollSpy`, for `hooks/useScrollSpy.ts`). Each evaluation
  shifts every section's bounding rectangle into document coordinates. It subtracts the header
  offset and selects the first section whose interval contains the scroll offset, inclusive at
  both ends. It publishes `""` when no interval contains the offset. A section whose element is
  missing gets the bounds `(-1, -1)`.
- **Typewriter title rotator** (`Hero`, for `components/Hero.tsx`). The `tick` state machine
  over `loopNum`, `isDeleting`, `text` and `delta` types the current title one character per
  tick, then deletes it, then moves to the next title. The module also models the
  call-to-action scroll target.
- **Project tag index and filter** (`Projects`, for `components/Projects.tsx`). The tag row is
  `'All'` followed by the distinct tags in first-occurrence order. The filter keeps the projects
  that carry the selected tag, in their original order.
- **Image-edit controller and cache** (`ImageEditor`, for `components/ImageEditor.tsx`). It has
  two input guards and a module-level cache keyed on the first 100 characters of the image plus
  the prompt. A cache hit skips the model. A success builds a base64 `data:` URL (section 3 of
  RFC 2397) and stores it in the cache. The failure paths set an error.
- **Chat message log** (`Chatbot`, for `components/Chatbot.tsx`). The log starts with a greeting
  and only grows. A send appends the user's message and then exactly one bot answer or apology.
  Without an API key, the session is never created and every send is a no-op.
- **Header navigation** (`Header`, for `components/Header.tsx`). Section ids are the link hrefs
  without their `#`, and the tracker runs with offset 100. A link is highlighted when the
  tracker's id is its target. A nav click computes its scroll target, using the 80-pixel
  fallback when there is no header element, and always closes the menu. The header is
  "scrolled" past 50 pixels.

Two shared modules hold the JavaScript and DOM semantics these rules use:

- `Js` covers `null` (`Option`), `substring` with its argument clamping, and `trim` with the
  ECMAScript white-space set.
- `Dom` covers element lookup by id, `href.substring(1)` and the smooth-scroll target
  arithmetic.

Functions model code that only computes (`ids.map(...).find(...)`, `flatMap`/`Set`/`filter`).
Classes with `modifies` clauses model the component state that handlers update in place:
`Tracker`, `Typewriter`, `Editor` with its shared `ResponseCache`, `ChatWindow` and `NavBar`.
Where a class method has a specification function (`Typewriter.Tick` against `Hero.Next`,
`Tracker.Listen` against `ScrollSpy.ActiveId`), the lemmas are stated about that function.

Inputs the browser or the model service would supply are parameters:

- scroll offsets and element rectangles: `Layout`, a map from id to `Rect`;
- the API key;
- what the image model and the chat session return: `ModelOutcome`, `Reply`, and whether the
  chat was created;
- the uploaded file's media type and the file reader's result.

Pixel quantities are exact `real`s.

The tracker compares `scroll >= top && scroll <= bottom` (hooks/useScrollSpy.ts:21), so a
boundary shared by two adjacent sections goes to the earlier one
(`ScrollSpy.SampleEvaluations`, scroll offset 700).

## Model

| member | source | states |
|---|---|---|
| `ScrollSpy.SectionPosition` | hooks/useScrollSpy.ts:11-19 | A rendered section's interval is its rectangle moved to document coordinates minus the offset. Both ends move by the same amount, so the interval keeps the rectangle's height. A missing element gets `(-1, -1)`. |
| `ScrollSpy.Positions` | hooks/useScrollSpy.ts:10-20 | One position per id, in the ids' order. |
| `ScrollSpy.Find` | hooks/useScrollSpy.ts:21 | The index found holds an interval containing the scroll offset, inclusive at both ends, and no earlier interval does. The result is absent exactly when no interval contains it. |
| `ScrollSpy.ActiveId` | hooks/useScrollSpy.ts:7-24 | The result is `""` or one of the ids. It is `""` when there are no ids or no section is in view. A non-empty result is the id of the first section in view. |
| `ScrollSpy.FirstInViewIsActive` | hooks/useScrollSpy.ts:21-23 | First match wins: the earliest section in view is active, whatever later sections contain. |
| `ScrollSpy.MissingSectionNeverActive` | hooks/useScrollSpy.ts:12-13 | An id without an element is never active at a non-negative scroll offset. |
| `ScrollSpy.SampleEvaluations` | hooks/useScrollSpy.ts:7-24 | For three stacked 800-pixel sections with offset 100, at any scroll offset: the adjusted intervals are [-100, 700], [700, 1500] and [1500, 2300]. An offset inside one of them activates that section, and the shared boundaries 700 and 1500 go to the earlier section. An offset outside all three activates none (`""`). |
| `ScrollSpy.Tracker.constructor` | hooks/useScrollSpy.ts:4-26 | Setup evaluates once, before any scroll or resize event, so `activeId` is the evaluation at the initial layout. |
| `ScrollSpy.Tracker.Listen` | hooks/useScrollSpy.ts:7-24 | `activeId` becomes the evaluation of the current scroll offset and layout. It does not depend on the previous value, so re-evaluating with nothing changed keeps it. |
| `Hero.InitialState` | components/Hero.tsx:44-47 | The rotator starts at title 0, typing, with empty text. |
| `Hero.NextSpec` | components/Hero.tsx:141-163 | After a tick the text is a prefix of the current title. Typing gives length `min(|text|+1, |title|)`. Deleting from a prefix gives `max(|text|-1, 0)`. The full title while typing switches to deleting with delay 2000. The empty text while deleting advances `loopNum` by exactly 1 and resets the delay to 500, overriding the halving. Otherwise deleting halves the delay and typing keeps it, and `loopNum` does not change. |
| `Hero.LoopNumMonotone` | components/Hero.tsx:44 | Over any number of ticks, `loopNum` never decreases and grows by at most one per tick. |
| `Hero.RunAdditive` | components/Hero.tsx:130-139 | Ticks compose: `a` ticks and then `b` ticks equal `a + b` ticks. |
| `Hero.TypingPhase` | components/Hero.tsx:143-148 | While typing short of the full title, each tick appends the title's next character and keeps the delay. |
| `Hero.TypesWholeTitle` | components/Hero.tsx:155-157 | From empty text, a title of `m` characters is complete after `m` ticks, and deleting starts with delay 2000. |
| `Hero.DeletingPhase` | components/Hero.tsx:143-153 | While deleting short of empty, each tick removes the last character and halves the delay. |
| `Hero.DeletesWholeTitle` | components/Hero.tsx:158-161 | A fully typed title is erased in `m` ticks, after which the next title starts typing with delay 500. |
| `Hero.TitleCycle` | components/Hero.tsx:141-163 | From empty text, whatever the delay, the rotator reaches the next title's empty text after `2m` ticks (2 for an empty title). |
| `Hero.SiteTitleCycle` | constants.ts:5 | The three site titles are non-empty, and each is typed and erased in twice its length in ticks, ending on the next title's empty text with delay 500. |
| `Hero.CtaTarget` | components/Hero.tsx:165-179 | The CTA scroll target puts the section's top 80 pixels below the viewport top (`rect.top + pageYOffset - 80`). There is no target when the section is absent. |
| `Hero.Typewriter.constructor` | components/Hero.tsx:44-47 | The state fields start as the initial state. The random first delay is a parameter. |
| `Hero.Typewriter.Tick` | components/Hero.tsx:141-163 | The new state is `Next` of the old state. |
| `Projects.Flatten` | components/Projects.tsx:117 | A tag occurs in the flattened list exactly when some project carries it. |
| `Projects.Distinct` | components/Projects.tsx:117 | Same elements as the input, no duplicates, ordered by first occurrence in the input. |
| `Projects.AllTags` | components/Projects.tsx:117 | Element 0 is `'All'`. After it, every tag of every project appears exactly once, in first-occurrence order across projects. |
| `Projects.FilterByTag` | components/Projects.tsx:121 | The result is a subsequence of the projects. It holds each project that carries the tag as often as the list does, and no project without it. |
| `Projects.VisibleProjects` | components/Projects.tsx:119-121 | `'All'` returns the list unchanged. Any other filter returns exactly the tagged projects, in order. A tag no project carries gives the empty list. |
| `Projects.InitiallyAllShown` | components/Projects.tsx:115 | The initial filter `'All'` shows every project. |
| `ImageEditor.CacheKey` | components/ImageEditor.tsx:46 | The key is the first 100 characters of the image (all of it if shorter), then `|`, then the prompt. |
| `ImageEditor.SharedPrefixSharesKey` | components/ImageEditor.tsx:46 | Two images that agree on their first 100 characters share the cache entry for each prompt. |
| `ImageEditor.KeySeparatesPrompts` | components/ImageEditor.tsx:46 | For one image, different prompts never share a key. |
| `ImageEditor.ParseDataUrl` | components/ImageEditor.tsx:76 | Whatever it reads back is the media type and payload the URL was built from. |
| `ImageEditor.DataUrlRoundTrip` | components/ImageEditor.tsx:76 | The built URL `data:<mime>;base64,<data>` parses back to `<mime>` and `<data>` when the media type has no `;`. |
| `ImageEditor.ResponseCache.constructor` | components/ImageEditor.tsx:7 | The module-level cache starts empty. |
| `ImageEditor.Editor.constructor` | components/ImageEditor.tsx:10-15 | No image, no result, empty prompt, not loading, no error, empty media type. |
| `ImageEditor.Editor.HandleImageUpload` | components/ImageEditor.tsx:17-29 | Choosing a file clears the edited image and the error and records the file's media type. Choosing no file changes nothing. |
| `ImageEditor.Editor.ImageRead` | components/ImageEditor.tsx:24-26 | The reader's result becomes the original image. |
| `ImageEditor.Editor.SetPrompt` | components/ImageEditor.tsx:125 | The prompt becomes the typed text. |
| `ImageEditor.Editor.GenerateImage` | components/ImageEditor.tsx:31-89 | A missing image or prompt sets its fixed error and changes nothing else, including the cache. A missing API key does the same with its own error. Past the guards, loading always ends false. A cache hit shows the cached value and leaves the cache alone. Inline data shows `data:<mime>;base64,<data>` and adds exactly that entry. No image, or a thrown error, leaves no result, sets the fixed or thrown message, and keeps the cache. Existing entries never change, and every shown or cached image is a data URL. |
| `Chatbot.BotAnswer` | components/Chatbot.tsx:79-84 | A bot message: the reply text on success, the fixed apology on failure. |
| `Chatbot.BlankInputNeverSent` | components/Chatbot.tsx:70 | When idle, a send goes ahead exactly when a session exists and the input is not all white space. |
| `Chatbot.ChatWindow.constructor` | components/Chatbot.tsx:14-19 | The log is the single greeting. Input is empty, nothing is loading, there is no session. |
| `Chatbot.ChatWindow.InitChat` | components/Chatbot.tsx:22-62 | No API key appends one configuration message and leaves no session. A created session adds nothing to the log. A failed creation appends one connection message. |
| `Chatbot.ChatWindow.SetInput` | components/Chatbot.tsx:150 | The input becomes the typed text. |
| `Chatbot.ChatWindow.Send` | components/Chatbot.tsx:69-75 | A send happens exactly when the guard holds. It appends one user message with the untrimmed input, clears the input and starts loading. Otherwise nothing changes. |
| `Chatbot.ChatWindow.Deliver` | components/Chatbot.tsx:77-87 | Exactly one bot answer is appended, and loading ends in both outcomes. |
| `Chatbot.ChatWindow.HandleSend` | components/Chatbot.tsx:69-88 | The log only grows. A send adds exactly the user message and then the bot answer, with the input cleared and loading over. A refused send changes nothing. |
| `Chatbot.UnconfiguredChatStaysSilent` | components/Chatbot.tsx:24-27 | Without an API key, the log stays the greeting plus the configuration message through any number of sends. |
| `Header.SectionIds` | components/Header.tsx:14 | One id per href, in order: the href with its first character removed. |
| `Header.AtMostOneHighlighted` | components/Header.tsx:64-66 | With distinct `#id` hrefs, at most one link is highlighted for any active id. |
| `Header.NavLinksWellFormed` | constants.ts:15-23 | The site's seven hrefs are distinct `#id` links with non-empty ids. |
| `Header.HighlightFollowsTracker` | components/Header.tsx:14-15 | With such links, the tracker's result highlights exactly one link when it names a section and none when it is `""`. |
| `Header.NavTarget` | components/Header.tsx:29-40 | The nav target puts the section's top one header height below the viewport top, using 80 when there is no header element. There is no target when the section is absent. |
| `Header.NavBar.constructor` | components/Header.tsx:9-15 | The menu is closed and the header not scrolled. The tracker has already evaluated the links' section ids once, with offset 100. |
| `Header.NavBar.OnScroll` | components/Header.tsx:18-20 | `isScrolled` holds exactly when `scrollY > 50`. |
| `Header.NavBar.ToggleMenu` | components/Header.tsx:25 | `isOpen` is negated. |
| `Header.NavBar.HandleNavClick` | components/Header.tsx:27-44 | The scroll target is `NavTarget`, and the menu is closed afterwards whether or not the section exists. |
| `Js.TrimStart` | components/Chatbot.tsx:70 | The result is a suffix of the input that does not start with white space, and everything cut off is white space. |
| `Js.TrimEnd` | components/Chatbot.tsx:70 | The result is a prefix of the input that does not end with white space, and everything cut off is white space. |
| `Js.Trim` | components/Chatbot.tsx:70 | The result is a slice `s[i..j]` of the input. It neither starts nor ends with white space, and everything before `i` and from `j` on is white space. |
| `Js.TrimEmptyIffBlank` | components/Chatbot.tsx:70 | `trim()` gives `""` exactly when every character is ECMAScript white space or a line terminator. |
| `Dom.FragmentId` | components/Header.tsx:29 | The id is the href without its first character: prefixing that character gives the href back. |
| `Dom.ScrollTarget` | components/Header.tsx:31-39 | There is a target exactly when the element exists, and it leaves the element's top the header height below the viewport top. |

## Left out

- Particle canvas, mouse-driven magnetic and tilt effects, and animation variants: floating-point
  motion, `Math.random` and animation frames, none of it state the other rules read.
- PDF résumé export and `components/ResumePDF.tsx`: rendering through html2canvas and jsPDF.
- About, Achievements, Contact, Education, Experience, Footer and Skills, and the back-to-top
  flag in `App.tsx`: presentational, no logic beyond rendering static data.
- The theme toggle in the header: the theme context is not part of this model.
- The open/closed flag of the chat panel: presentational.
- Timers: the `setInterval` that drives `tick` and `delta`'s role as its delay. The random first
  delay is a constructor parameter. `Hero.Next` assumes that each tick sees the current state. In the
  component, the interval is re-created only when `text` changes. So a tick that leaves `text`
  unchanged would keep the stale closure. That happens only for an empty title, and the site's
  three titles are non-empty (`Hero.SiteTitleCycle`).
- Hero.Typewriter.Tick: requires at least one title. With none, `loopNum % 0` has no title to
  read. The site's constant list has three.
- Registration and removal of the scroll and resize listeners: runtime plumbing. The header
  builds a fresh id array on every render, so the tracker's effect re-subscribes and
  re-evaluates on each render. Each evaluation is still `ActiveId` of the current inputs.
- The calls to the generative-AI service: creating the client and chat, the request contents,
  and splitting the base64 payload out of the data URL. What the calls return is a parameter
  (`ModelOutcome`, `Reply`, the `created` flag).
- ImageEditor.Editor.GenerateImage: one atomic step. The `isLoading == true` state while the
  model call is pending is not observable in the model.
- The file reader's asynchronous loading: only its completion (`ImageRead`) is modelled.
- `window.scrollTo`, `scrollIntoView` and `preventDefault`: side effects. Only the computed
  target is modelled.
- Logging: the `console.error` calls on the failure paths (components/Chatbot.tsx:25, 58 and
  82; components/ImageEditor.tsx:84) write to the browser console only and change no state.
- Floating-point rounding of pixel values: pixels are exact reals.
