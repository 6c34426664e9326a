# Blast Projects website: the client-side state machines

The Blast Projects site is a marketing website. Almost all of it is static copy and
animation. Two pieces of it hold behaviour that can be stated and proved, and this
project models those two:

- **The demo slideshow** (`client/src/pages/Demo.tsx`, module `Demo` in `demo.dfy`).
  It cycles through a fixed table of five slides: intro, services, process, projects
  and call to action. Its state is `(currentSlide, itemIndex)`. A timer fires once per
  state and does one of three things:
  - reveals one more item of the current slide, after 600 ms;
  - moves to the next slide with nothing revealed, after 2500 ms;
  - on the last slide, returns to `(0, 0)`, after 2500 ms and then 4000 ms.

  The step is a pure function `Next` over the item counts of a slide table. It returns
  a `Tick`: the delay waited and the new state. `Run` composes `n` steps. The lemmas
  prove the whole cycle for any non-empty table. `DemoCycle` instantiates it for the
  page's table (counts 0, 4, 4, 3, 0): 16 steps and 23.1 seconds per cycle. The wrap's
  two nested timers count as one step, so the page fires 17 timer callbacks per cycle. The
  component's two state hooks are the class `Slideshow`. Its `Step` method derives the
  item count from the slide's kind, as the component does, and is proved equal to
  `Next`. The renderer's predicates are covered too: which items are visible and which
  progress dot is highlighted.
- **The colour theme** (`client/src/components/ThemeProvider.tsx`, module
  `ThemeProvider`; `client/src/components/ThemeToggle.tsx`, module `ThemeToggle`).
  A theme is `dark`, `light` or `system`. The browser is modelled as values:
  - whether a window exists (it does not during server rendering);
  - the OS dark-scheme preference, as a boolean;
  - `localStorage`, as a `map<string, string>`;
  - the root element's class list, as a `set<string>`.

  The pure parts are functions: parsing a stored value, the initial theme, what
  `setTheme` leaves in storage, the resolved theme, `applyTheme` on the class list,
  `useTheme`, and the toggle's next theme, title and icon. The mounted provider is the
  class `Provider`. Its methods are `SetTheme`, `ApplyTheme`, the theme effect
  (`RunEffect`) and the media-query listener (`PreferenceChanged`). Its invariant
  `Synced` says that after the effect the root element shows exactly one of
  `light`/`dark`, namely the resolved theme.

`wrappers.dfy` holds the `Option` and `Result` types.

The comment at `client/src/components/ThemeProvider.tsx:78` says the theme is not
persisted to `localStorage`. The code above it does persist the theme (lines 36-45).
The model follows the code.

## Model

| member | source | states |
|---|---|---|
| Demo.ItemCount | client/src/pages/Demo.tsx:58-62 | intro and CTA slides reveal no items; only the services, process and projects slides can have a positive count |
| Demo.SlideCounts | client/src/pages/Demo.tsx:9-62 | the item counts derived from the slide table are 0, 4, 4, 3, 0 (intro and CTA reveal nothing) |
| Demo.Next | client/src/pages/Demo.tsx:56-81 | a step keeps `currentSlide` inside the table and preserves `itemIndex <= itemCount(currentSlide)` |
| Demo.NextReveals | client/src/pages/Demo.tsx:64-65 | while items remain, a step raises `itemIndex` by exactly one on the same slide, after 600 ms |
| Demo.NextAdvances | client/src/pages/Demo.tsx:67-71 | with all items revealed on a slide that is not last, a step enters the next slide with `itemIndex` 0, after 2500 ms |
| Demo.NextWraps | client/src/pages/Demo.tsx:72-77 | with all items revealed on the last slide, a step returns to `(0, 0)` after 2500 + 4000 ms |
| Demo.NextChangesState | client/src/pages/Demo.tsx:64-81 | on any table other than a single slide without items, every step changes `(currentSlide, itemIndex)`, so the effect, which depends on both, runs again |
| Demo.DemoStepChangesState | client/src/pages/Demo.tsx:56-81 | on the page's own table, every timer firing changes the state, so the slideshow never stalls |
| Demo.Run | client/src/pages/Demo.tsx:56-81 | any number of steps keeps the slide index in range and the invariant |
| Demo.RevealPrefix | client/src/pages/Demo.tsx:64-65 | from the start of a slide, `j` steps reveal exactly its first `j` items, taking `600 * j` ms |
| Demo.SlideRun | client/src/pages/Demo.tsx:56-81 | the steps spent on one slide lead to the next slide, or back to the start after the last, in the slide's total time |
| Demo.EntersSlide | client/src/pages/Demo.tsx:56-81 | starting from `(0, 0)`, slide `k` is entered after the steps and time of all earlier slides |
| Demo.CycleVisits | client/src/pages/Demo.tsx:56-81 | starting from `(0, 0)`, every state `(k, j)` with `j <= itemCount(k)` is reached, slides in table order, items one by one |
| Demo.CycleReturns | client/src/pages/Demo.tsx:69-76 | after the last slide's steps the state is `(0, 0)` again |
| Demo.DemoCycle | client/src/pages/Demo.tsx:9-81 | for the page's own table, 16 steps (the wrap's two timers merged into one), taking 23100 ms, bring `(0, 0)` back to `(0, 0)` |
| Demo.RevealedItems | client/src/pages/Demo.tsx:199-203 | the visibility flags, one per item of the current slide (same rule at lines 229 and 258); RevealedCount and RevealShowsNextItem state which items are visible |
| Demo.ActiveDots | client/src/pages/Demo.tsx:309-313 | the highlight flags, one per slide of the table; ExactlyOneDot states that exactly the current slide's dot is active |
| Demo.RevealedCount | client/src/pages/Demo.tsx:199-203 | the visible items are exactly the first `itemIndex` items of the slide (same rule at lines 229 and 258) |
| Demo.RevealShowsNextItem | client/src/pages/Demo.tsx:64-65 | a reveal step makes exactly one more item visible, the first hidden one, and hides none |
| Demo.ExactlyOneDot | client/src/pages/Demo.tsx:309-313 | exactly one progress dot is active, the one of the current slide |
| Demo.Slideshow.constructor | client/src/pages/Demo.tsx:53-54 | both state hooks start at 0 |
| Demo.Slideshow.Step | client/src/pages/Demo.tsx:56-81 | the effect derives the item count from the slide's kind and its timer callback moves the hooks as `Next` says, returning the delay |
| Demo.Slideshow.Play | client/src/pages/Demo.tsx:56-81 | `n` successive timer firings move the hooks as `Run` says and wait its total time |
| ThemeProvider.ParseTheme | client/src/components/ThemeProvider.tsx:28-29 | a stored string is accepted iff it is `dark`, `light` or `system`, and is then the theme of that label |
| ThemeProvider.ParseLabel | client/src/components/ThemeProvider.tsx:3-3 | every theme's label is accepted as that theme |
| ThemeProvider.SystemTheme | client/src/components/ThemeProvider.tsx:13-18 | the OS theme is dark when there is no window, otherwise dark iff the dark-scheme query matches |
| ThemeProvider.InitialTheme | client/src/components/ThemeProvider.tsx:25-34 | the initial theme is the stored value when it is a theme label (in a browser), otherwise `defaultTheme` |
| ThemeProvider.PersistTheme | client/src/components/ThemeProvider.tsx:36-45 | `setTheme` removes the key for `system` and writes the label otherwise, touching no other key, and changes nothing without a window |
| ThemeProvider.PersistThenReload | client/src/components/ThemeProvider.tsx:26-45 | persisting a theme and reading the initial theme again gives it back (`system` comes back as the default) |
| ThemeProvider.ResolveTheme | client/src/components/ThemeProvider.tsx:47-52 | the resolved theme is the chosen one, or the OS theme in `system` mode, and is never `system` |
| ThemeProvider.ApplyClasses | client/src/components/ThemeProvider.tsx:57-59 | after `applyTheme(x)` the root has `x`'s class, not the other theme class, and all other classes unchanged |
| ThemeProvider.ShowsUnique | client/src/components/ThemeProvider.tsx:57-59 | a class list that shows a theme shows only that one |
| ThemeProvider.UseTheme | client/src/components/ThemeProvider.tsx:88-93 | `useTheme` fails iff there is no provider context, with the source's message, and otherwise returns the context |
| ThemeProvider.Provider.constructor | client/src/components/ThemeProvider.tsx:25-79 | mounting reads the initial theme (`defaultTheme` defaults to `system`), derives the resolved theme, and in a browser runs the effect once |
| ThemeProvider.Provider.SetTheme | client/src/components/ThemeProvider.tsx:36-45 | the theme state becomes the new theme and storage becomes `PersistTheme` of the old storage |
| ThemeProvider.Provider.ApplyTheme | client/src/components/ThemeProvider.tsx:57-61 | the class list becomes `ApplyClasses` of the old one and the resolved theme is recorded |
| ThemeProvider.Provider.RunEffect | client/src/components/ThemeProvider.tsx:54-79 | after the theme effect the root shows exactly the resolved theme, and the listener is registered iff the theme is `system` |
| ThemeProvider.Provider.PreferenceChanged | client/src/components/ThemeProvider.tsx:67-73 | in `system` mode an OS change makes the resolved theme dark iff the event matches dark and applies it to the root, keeping every other class; otherwise nothing shown changes |
| ThemeProvider.Provider.Consume | client/src/components/ThemeProvider.tsx:81-93 | inside a provider, `useTheme` returns its theme and resolved theme |
| ThemeToggle.ToggleTheme | client/src/components/ThemeToggle.tsx:8-10 | a click asks for light iff the theme is dark, and never for `system` |
| ThemeToggle.ToggleChanges | client/src/components/ThemeToggle.tsx:9-9 | a click always changes the theme |
| ThemeToggle.ToggleTwice | client/src/components/ThemeToggle.tsx:9-9 | two clicks from dark or light return to it |
| ThemeToggle.Title | client/src/components/ThemeToggle.tsx:18-18 | the title is "Switch to light" iff the theme is dark, and "Switch to dark" otherwise |
| ThemeToggle.ButtonIcon | client/src/components/ThemeToggle.tsx:20-20 | the Sun icon is shown iff the theme is dark, the Moon icon otherwise |
| ThemeToggle.TitleNamesTarget | client/src/components/ThemeToggle.tsx:8-18 | the title names the theme that a click switches to |
| ThemeToggle.ToggleTwicePersists | client/src/components/ThemeToggle.tsx:8-10 | two clicks from dark or light leave storage as persisting that theme directly would |
| ThemeToggle.Click | client/src/components/ThemeToggle.tsx:8-10 | a click stores the toggled theme, touching no other storage key, and applies it to the root, keeping every other class and the OS preference |
| ThemeToggle.ClickTwice | client/src/components/ThemeToggle.tsx:8-10 | two clicks from dark or light restore the theme; storage is as if that theme were persisted directly, the root shows it with every other class kept, and a reload reads it back |

## Left out

- Timers: `setTimeout`/`clearTimeout` and the cleanup functions in `Demo.tsx` are not modelled. Each firing is one discrete step that returns its delay. The nested 4000 ms timeout on the last slide is never cleared in the source. The model merges it with the 2500 ms timer into one step of 6500 ms, because nothing changes in between.
- Demo.Slideshow.Play: this is the scheduler re-running the effect after each state change. It models timer firings in sequence, not React's rendering.
- The slide table's icons and logo images, the framer-motion animations and all styling are not modelled. Only the titles, texts, item lists and item counts are.
- Browser APIs: `localStorage`, `matchMedia`, `document.documentElement.classList` and listener registration are abstract values. These are a map, a boolean, a set and the `listening` flag. The provider's effect runs only in a browser, so `RunEffect` requires a window.
- React context: `createContext`/`useContext` is reduced to an optional `Context` value passed to `UseTheme`. The `Context` value holds the theme and the resolved theme but not the `setTheme` callback. Components reach `setTheme` by calling `Provider.SetTheme`, as `ThemeToggle.Click` does.
- Demo.Run: it keeps stepping on every table, including a single slide without items. There the wrap leaves `(0, 0)` unchanged, so React would not re-run the effect and the page would stop. `NextChangesState` excludes that table. The page's own table is never in that case (`DemoStepChangesState`).
- `server/routes.ts` is not part of this model. It is a thin HTTP wrapper whose validation schema, storage and email client are not part of the source shown.
- The contact form, starfield animation, header, footer and static pages are not part of this model. They are presentation, randomness, canvas drawing or network I/O with no state machine of their own.
