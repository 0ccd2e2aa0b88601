# Portfolio front end: the page logic, modelled in Dafny

This project models the sequential logic inside the portfolio site's React
pages:

- **Terminal console.** `parseCommand`, `executeCommand`, the fixed command
  outputs, and the Enter-key transition on the `(history, currentInput)` pair.
- **Travel page.**
  - `normalizeImageUrl`.
  - The hero slides derived from the first trip, with their fallbacks.
  - The main background image taken from the fetched data.
  - The slide index, advanced by the timer and clamped by the bounds effect.
- **Theme provider.** The initial theme, read from a key-value store, plus
  `setTheme`, `toggleTheme`, the effect that rewrites the class lists of the
  document root and body and persists the theme, and `useTheme`.
- **Project detail page.** `renderContent`, the hero image and gallery, the
  content fallbacks behind the three tabs, the tab panels, the slug effect,
  the error mapping and which screen shows.
- **Trip detail page.** The day list, day badges and trip-type badge, the
  `OptimizedImage` load/error flags, the slug effect, the error mapping and
  which screen shows.
- **Home page.** `getInitials`.
- **Contact page.** The three-card list and its filter, the page views, and
  the copy-email guard.

Three shared modules underpin the pages:

- `Js` models the JavaScript values the pages handle: null and undefined
  (both `Nullish`), booleans, numbers, strings, arrays and objects.
  Truthiness, `??`, `||` and `?.` are written out over them.
- `Text` models `trim()`, `split(/\s+/)`, `toLowerCase()` and
  `toUpperCase()`.
  - `trim()` and `split` are defined through positions in the string. The
    first non-whitespace position, the last one and the end of a word are
    each characterised by their own contract, and small lemmas pin each one
    down.
  - `trim()` and `\s` share one whitespace set, written out in
    `Text.IsWhitespace`.
- `Seqs` models `Array.prototype.filter`, which the Travel and Contact pages
  both use.

React state becomes classes whose fields are the `useState` variables:

- `Terminal.Console`
- `Travel.TravelPage`
- `Theme.ThemeProvider`
- `ProjectDetail.ProjectDetailPage`
- `TravelDetail.TravelDetailPage`
- `TravelDetail.OptimizedImage`
- `Contact.ContactPage`

Each handler or effect is a method. It states the page's whole new state in
terms of the pure functions, and its invariant is `Valid()` or `Synced()`.
The pure derivations are functions, and lemmas state their properties.

Resolved requests enter as method parameters:

- the data a request resolved with (`res.data`);
- the status and message of a rejected request;
- whether the clipboard accepted the text;
- the key that was pressed.

## Model

| member | source | states |
|---|---|---|
| Terminal.ParseCommand | frontend/src/pages/Terminal/Terminal.jsx:32-37 | the token is empty exactly when the line is empty or whitespace only; it never contains whitespace or an upper-case letter |
| Terminal.ParseCommandFirstWord | frontend/src/pages/Terminal/Terminal.jsx:33-36 | whatever whitespace precedes the first word, and whatever follows it after a whitespace character, the token is that word lower-cased |
| Terminal.ReplyTextsDistinct | frontend/src/pages/Terminal/Terminal.jsx:4-30 | the five fixed outputs of `runHelp` … `runContact` are pairwise different, and none is the not-found text |
| Terminal.CommandReply | frontend/src/pages/Terminal/Terminal.jsx:40-53 | the `switch` selects an output exactly for the five tokens of the command table, and selects that token's entry |
| Terminal.ExecuteCommand | frontend/src/pages/Terminal/Terminal.jsx:39-54 | the result is the not-found text exactly when the `switch` selects no command |
| Terminal.ExecuteCommandLooksUp | frontend/src/pages/Terminal/Terminal.jsx:39-54 | `executeCommand` is total: a token in the table gives its own output, and exactly the other tokens, `clear` included, give "Command not found. Type 'help'." |
| Terminal.Enter | frontend/src/pages/Terminal/Terminal.jsx:71-80 | `clear` empties the history and the buffer. A blank line changes nothing. Any other line appends exactly one entry (the trimmed line and its token's output) after the unchanged earlier entries, and empties the buffer |
| Terminal.ParseCommandOfTrimmed | frontend/src/pages/Terminal/Terminal.jsx:79 | parsing the stored trimmed line gives the same token as parsing the typed line |
| Terminal.EnterPreservesWellFormed | frontend/src/pages/Terminal/Terminal.jsx:71-80 | every history entry stays a non-empty, trimmed, non-`clear` line paired with the output of its own token |
| Terminal.ClearWithArguments | frontend/src/pages/Terminal/Terminal.jsx:71-76 | `"  CLEAR x"` clears: matching is case-insensitive and ignores the words after the first |
| Terminal.EnterAppendsLine | frontend/src/pages/Terminal/Terminal.jsx:78-80 | a trimmed line with an ordinary token is appended verbatim with that token's output |
| Terminal.AboutMePleaseParses | frontend/src/pages/Terminal/Terminal.jsx:32-37 | the token of `"About me please"` is `about` |
| Terminal.AboutMePlease | frontend/src/pages/Terminal/Terminal.jsx:16-18 | Enter on `"About me please"` appends that line with the output of `runAbout` |
| Terminal.HelpThenClear | frontend/src/pages/Terminal/Terminal.jsx:68-81 | `help` followed by `clear` leaves an empty history and an empty buffer |
| Terminal.Console.constructor | frontend/src/pages/Terminal/Terminal.jsx:57-58 | the history and the buffer start empty |
| Terminal.Console.OnInputChange | frontend/src/pages/Terminal/Terminal.jsx:129 | the buffer takes the typed text and the history is unchanged |
| Terminal.Console.HandleKeyDown | frontend/src/pages/Terminal/Terminal.jsx:68-81 | a key other than Enter changes nothing; Enter performs `Terminal.Enter` on the state; the history stays well formed |
| Text.Trim | frontend/src/pages/Terminal/Terminal.jsx:33 | `trim()` returns a string with no whitespace at either end, empty exactly when the input is whitespace only |
| Text.TrimParts | frontend/src/pages/Terminal/Terminal.jsx:33 | the input is the trimmed string with a whitespace run on either side |
| Text.TrimOfPadded | frontend/src/pages/Travel/Travel.jsx:8 | whitespace around an already trimmed string is exactly what `trim()` removes |
| Text.TrimIgnoresPadding | frontend/src/pages/Home/Home.jsx:9 | extra whitespace around a string never changes what `trim()` returns |
| Text.TrimIdempotent | frontend/src/pages/Terminal/Terminal.jsx:33 | `trim()` applied twice is `trim()` applied once |
| Text.Split | frontend/src/pages/Terminal/Terminal.jsx:35 | `split(/\s+/)` gives at least one piece, and the first is the input's leading run of non-whitespace |
| Text.SplitOfWord | frontend/src/pages/Home/Home.jsx:10 | a single word splits into itself |
| Text.SplitAfterWord | frontend/src/pages/Home/Home.jsx:10 | a word and any non-empty whitespace run become one piece, then splitting goes on after the run |
| Text.SplitTrimmedIntoWords | frontend/src/pages/Home/Home.jsx:9-10 | every piece of a non-empty trimmed string is a non-empty word without whitespace |
| Travel.NormalizeImageUrl | frontend/src/pages/Travel/Travel.jsx:6-10 | the result never has whitespace at either end, and is `''` exactly for null/undefined or a whitespace-only string |
| Travel.NormalizeImageUrlStripsPadding | frontend/src/pages/Travel/Travel.jsx:6-10 | a URL with whitespace around it normalises to the URL itself |
| Travel.NormalizeImageUrlIdempotent | frontend/src/pages/Travel/Travel.jsx:6-10 | normalising a normalised URL changes nothing |
| Seqs.Filter | frontend/src/pages/Travel/Travel.jsx:63 | `filter` never lengthens the list and keeps exactly the elements that pass the test (here an image and a heading; on the Contact page, at `Contact.jsx:90`, a value) |
| Seqs.FilterAppend | frontend/src/pages/Travel/Travel.jsx:63 | `filter` keeps relative order: it distributes over concatenation |
| Seqs.FilterAll | frontend/src/pages/Travel/Travel.jsx:63 | when every element passes the test, `filter` drops none |
| Travel.NormalizeSlide | frontend/src/pages/Travel/Travel.jsx:57-62 | the slide's image is normalised: trimmed, and empty exactly when missing or blank; heading, subheading and description are carried over unchanged |
| Travel.HeroSlides | frontend/src/pages/Travel/Travel.jsx:52-90 | every hero slide has a non-empty image and a non-empty heading |
| Travel.HeroSlidesFromTrip | frontend/src/pages/Travel/Travel.jsx:55-63 | with slides on the first trip, the hero slides are those slides normalised and filtered: every presentable one is kept, in the trip's order, every slide shown is presentable and one of them, and all are kept when all are presentable |
| Travel.TripFallback | frontend/src/pages/Travel/Travel.jsx:64-77 | a trip without slides of its own gives at most one slide, none exactly when neither the cover nor the main image is usable; that slide is presentable and shows the cover when the cover is usable |
| Travel.MainImageFallback | frontend/src/pages/Travel/Travel.jsx:78-89 | without trips, one presentable "Travel Journal" slide exactly when the main image is usable |
| Travel.HeroSlidesFromTripFields | frontend/src/pages/Travel/Travel.jsx:64-77 | a first trip without slides gives at most one slide: cover image else main image, title else "Travel Journal", location name else null, short description else the default sentence; none when neither image is usable |
| Travel.HeroSlidesWithoutTrips | frontend/src/pages/Travel/Travel.jsx:78-89 | without trips, exactly one "Travel Journal" slide when the main image normalises non-empty, else none |
| Travel.NextSlide | frontend/src/pages/Travel/Travel.jsx:96-99 | a tick from a valid index lands in `[0, len)` and is `(prev + 1) mod len` |
| Travel.Wrap | frontend/src/pages/Travel/Travel.jsx:96-99 | going round the slides whole times gives exactly `x % len`: an index in range that never moves forward |
| Travel.AdvanceByWraps | frontend/src/pages/Travel/Travel.jsx:94-99 | `n` ticks from a valid index move it forward by `n`, going round as often as needed |
| Travel.AdvanceWithinRange | frontend/src/pages/Travel/Travel.jsx:94-99 | ticks that do not reach the end never wrap |
| Travel.FullCycleReturns | frontend/src/pages/Travel/Travel.jsx:94-99 | `len` ticks from a valid index return to it |
| Travel.ClampSlide | frontend/src/pages/Travel/Travel.jsx:105-109 | the index becomes 0 exactly when it is past the end of a non-empty list and is otherwise unchanged; it is in range whenever there are slides |
| Travel.MainImageFromData | frontend/src/pages/Travel/Travel.jsx:119-120 | `mainImage`, else `mainimage`, is kept, trimmed, exactly when it is a string that is not blank; otherwise null |
| Travel.MainImageKeyPrecedence | frontend/src/pages/Travel/Travel.jsx:119 | once `mainImage` is set, even to a non-string, `mainimage` is never consulted |
| Travel.TravelPage.constructor | frontend/src/pages/Travel/Travel.jsx:26-30 | no trips, no main image, slide 0 |
| Travel.TravelPage.ReceiveTrips | frontend/src/pages/Travel/Travel.jsx:37 | the trips become `res.data`, or `[]` without data, and the bounds effect then runs; the index stays valid |
| Travel.TravelPage.ReceiveMainImage | frontend/src/pages/Travel/Travel.jsx:117-121 | the main image becomes the normalised value from the data, and the bounds effect then runs |
| Travel.TravelPage.MainImageFailed | frontend/src/pages/Travel/Travel.jsx:123-125 | a failed fetch leaves no main image, and the bounds effect then runs |
| Travel.TravelPage.ClampEffect | frontend/src/pages/Travel/Travel.jsx:105-109 | the bounds effect changes only the index, as `Travel.ClampSlide` says, and makes it valid |
| Travel.TravelPage.Tick | frontend/src/pages/Travel/Travel.jsx:94-99 | with more than one slide, a tick changes only the index, as `Travel.NextSlide` says, and keeps it valid |
| Theme.InitialTheme | frontend/src/context/ThemeContext.jsx:12-14 | the stored non-empty value under `portfolio-theme`, else `light`; never empty |
| Theme.Normalize | frontend/src/context/ThemeContext.jsx:26-28 | the result is `light` or `dark`, and `dark` exactly when the argument is `dark` |
| Theme.NormalizeIdempotent | frontend/src/context/ThemeContext.jsx:26-28 | `setTheme` is idempotent and keeps a value that already is a theme |
| Theme.Toggled | frontend/src/context/ThemeContext.jsx:30-32 | the result is a theme different from the previous value, and is `light` exactly when the previous value was `dark` |
| Theme.ToggleInvolution | frontend/src/context/ThemeContext.jsx:30-32 | for `light` and `dark`, toggling twice returns to the theme toggling started from |
| Theme.WithThemeClass | frontend/src/context/ThemeContext.jsx:19-22 | for any theme, stored values other than `light`/`dark` included: the theme is in the class set, every other class is there exactly when it was before, and `light`/`dark` remain only as the theme itself |
| Theme.WithThemeClassOverrides | frontend/src/context/ThemeContext.jsx:16-24 | a later run of the effect, for any theme string, wipes out an earlier run for `light` or `dark` |
| Theme.WithThemeClassIdempotent | frontend/src/context/ThemeContext.jsx:16-24 | running the effect twice for one theme is running it once |
| Theme.PersistedThemeIsRestored | frontend/src/context/ThemeContext.jsx:12-23 | the persisted theme is the initial theme of the next mount |
| Theme.UseTheme | frontend/src/context/ThemeContext.jsx:41-44 | `useTheme` throws "useTheme must be used within ThemeProvider" exactly when no provider value is present, and otherwise returns it |
| Theme.ThemeProvider.constructor | frontend/src/context/ThemeContext.jsx:12-24 | mounting takes the initial theme and runs the effect: both class sets and the store agree with it |
| Theme.ThemeProvider.ApplyTheme | frontend/src/context/ThemeContext.jsx:16-24 | the effect sets both class sets with `Theme.WithThemeClass` and stores the theme under `portfolio-theme` |
| Theme.ThemeProvider.SetTheme | frontend/src/context/ThemeContext.jsx:26-28 | the theme becomes `Theme.Normalize(value)`, and the effect then runs |
| Theme.ThemeProvider.ToggleTheme | frontend/src/context/ThemeContext.jsx:30-32 | the theme becomes `Theme.Toggled` of the old one, and the effect then runs |
| Loading.ErrorMessage | frontend/src/pages/ProjectDetail/ProjectDetail.jsx:61 | status 404 gives the not-found text, else the error's message when it is non-empty, else the fallback text; never empty |
| ProjectDetail.RenderContent | frontend/src/pages/ProjectDetail/ProjectDetail.jsx:12-31 | a paragraph exactly for a string, a list of its items exactly for a non-empty array, and nothing otherwise, null included |
| ProjectDetail.HeroImage | frontend/src/pages/ProjectDetail/ProjectDetail.jsx:120 | there is a hero image exactly when the image list is non-empty |
| ProjectDetail.Gallery | frontend/src/pages/ProjectDetail/ProjectDetail.jsx:307-316 | the gallery has every image but one when there are at least two images, and none otherwise |
| ProjectDetail.HeroAndGalleryPartitionImages | frontend/src/pages/ProjectDetail/ProjectDetail.jsx:307-316 | the hero image followed by the gallery is exactly the image list |
| ProjectDetail.OverviewContent | frontend/src/pages/ProjectDetail/ProjectDetail.jsx:121 | the content's overview when it is not null or undefined, else the top-level description |
| ProjectDetail.FeaturesContent | frontend/src/pages/ProjectDetail/ProjectDetail.jsx:122 | the content's features when not null or undefined, else the top-level features when not null or undefined, else `[]`; never null or undefined |
| ProjectDetail.ImpactContent | frontend/src/pages/ProjectDetail/ProjectDetail.jsx:117-123 | the content's impact when the `content` object has the key; nothing otherwise, as there is no top-level fallback |
| ProjectDetail.OverviewText | frontend/src/pages/ProjectDetail/ProjectDetail.jsx:126 | there is an overview text exactly when the overview content is a string, and then it is that string |
| ProjectDetail.OverviewList | frontend/src/pages/ProjectDetail/ProjectDetail.jsx:125-127 | the overview if it is an array, else the features if they are an array, else empty |
| ProjectDetail.TopLevelFallback | frontend/src/pages/ProjectDetail/ProjectDetail.jsx:117-123 | without a `content` object the tabs use `description`, and `features` or `[]`, and there is no impact (a `content` object without a key falls back as `ProjectDetail.OverviewContent` and `ProjectDetail.FeaturesContent` state) |
| ProjectDetail.Panel | frontend/src/pages/ProjectDetail/ProjectDetail.jsx:242-300 | Overview shows `overviewText` exactly when non-empty, the `overviewList` details exactly when non-empty and nothing in their place otherwise, and its note exactly when neither. Features and Impact render `featuresContent` and `impactContent` exactly under their conditions, and otherwise show their own note |
| ProjectDetail.PanelBlankOnlyForEmptyImpact | frontend/src/pages/ProjectDetail/ProjectDetail.jsx:251-298 | every panel shows a non-empty text, a non-empty list or its note, except that an `impact` of `''` renders an empty paragraph: exactly that case gives an empty panel |
| ProjectDetail.DetailScreen | frontend/src/pages/ProjectDetail/ProjectDetail.jsx:71-107 | the skeleton exactly while loading; the project exactly when not loading, with no error and a project; otherwise the failure card with the error |
| ProjectDetail.FailureIsExplained | frontend/src/pages/ProjectDetail/ProjectDetail.jsx:60-62 | after a failed request the failure card shows a non-empty message |
| ProjectDetail.ProjectDetailPage.constructor | frontend/src/pages/ProjectDetail/ProjectDetail.jsx:40-43 | no project, loading, no error, the Overview tab |
| ProjectDetail.ProjectDetailPage.SelectTab | frontend/src/pages/ProjectDetail/ProjectDetail.jsx:227 | the clicked tab becomes active and nothing else changes |
| ProjectDetail.ProjectDetailPage.OnSlugChange | frontend/src/pages/ProjectDetail/ProjectDetail.jsx:45-54 | a missing slug sets "No project specified" and stops loading; a present one resets loading, error and the tab to Overview |
| ProjectDetail.ProjectDetailPage.OnLoaded | frontend/src/pages/ProjectDetail/ProjectDetail.jsx:57-65 | the project becomes the data and loading ends |
| ProjectDetail.ProjectDetailPage.OnFailed | frontend/src/pages/ProjectDetail/ProjectDetail.jsx:60-65 | the error becomes the mapped message, loading ends and the failure card shows it |
| ProjectDetail.ProjectDetailPage.Screen | frontend/src/pages/ProjectDetail/ProjectDetail.jsx:71-107 | the skeleton exactly while loading, the project exactly when not loading with no error and a project, and a present error is the message shown |
| TravelDetail.Days | frontend/src/pages/TravelDetail/TravelDetail.jsx:151 | `trip.days` when it is an array, else `[]` |
| TravelDetail.HasDays | frontend/src/pages/TravelDetail/TravelDetail.jsx:151-152 | the timeline shows exactly when `trip.days` is a non-empty array |
| TravelDetail.DayBadge | frontend/src/pages/TravelDetail/TravelDetail.jsx:259 | a null or undefined day throws; otherwise the badge is the day's `dayNumber` when that is present, else the position counted from 1, never null |
| TravelDetail.DayBadges | frontend/src/pages/TravelDetail/TravelDetail.jsx:251-259 | the timeline throws exactly when some day is null or undefined; otherwise one badge per day, each from its own day and position |
| TravelDetail.UnnumberedDaysCountFromOne | frontend/src/pages/TravelDetail/TravelDetail.jsx:259 | days that are present but carry no number are numbered 1, 2, 3, ... |
| TravelDetail.TripTypeLabel | frontend/src/pages/TravelDetail/TravelDetail.jsx:202-205 | no badge for a falsy trip type; `Multi-day` exactly for `multi-day`; otherwise `One-day` |
| TravelDetail.ImageViewOf | frontend/src/pages/TravelDetail/TravelDetail.jsx:29-62 | "No image" exactly for an empty URL; the pulse exactly while neither flag is set; "Image unavailable" exactly after an error; the picture visible exactly once it loaded without error |
| TravelDetail.OptimizedImage.constructor | frontend/src/pages/TravelDetail/TravelDetail.jsx:18-21 | the URL is the normalised `src` and both flags are clear |
| TravelDetail.OptimizedImage.SetSrc | frontend/src/pages/TravelDetail/TravelDetail.jsx:19-27 | a new URL clears both flags, and an unchanged one keeps them; the flags are never both set |
| TravelDetail.OptimizedImage.OnLoad | frontend/src/pages/TravelDetail/TravelDetail.jsx:53 | loading sets `loaded` and shows the picture |
| TravelDetail.OptimizedImage.OnError | frontend/src/pages/TravelDetail/TravelDetail.jsx:54-57 | an error sets `error`, clears `loaded` and shows "Image unavailable" |
| TravelDetail.TripScreen | frontend/src/pages/TravelDetail/TravelDetail.jsx:122-140 | the skeleton exactly while loading; the trip exactly when not loading, with no error and a trip; otherwise the error, or "Trip not found.", never empty |
| TravelDetail.TravelDetailPage.constructor | frontend/src/pages/TravelDetail/TravelDetail.jsx:87-89 | no trip, loading, no error |
| TravelDetail.TravelDetailPage.OnSlugChange | frontend/src/pages/TravelDetail/TravelDetail.jsx:91-99 | a missing slug sets "No trip specified" and stops loading; a present one resets loading and error |
| TravelDetail.TravelDetailPage.OnLoaded | frontend/src/pages/TravelDetail/TravelDetail.jsx:102-116 | the trip becomes the data and loading ends; without an error, a truthy trip shows and a falsy one shows "Trip not found." |
| TravelDetail.TravelDetailPage.Screen | frontend/src/pages/TravelDetail/TravelDetail.jsx:122-140 | the trip shows exactly when not loading, with no error and a truthy `trip`; with no error and no truthy trip the failure text is "Trip not found." |
| TravelDetail.TravelDetailPage.OnFailed | frontend/src/pages/TravelDetail/TravelDetail.jsx:105-116 | 404 gives "Trip not found", else the message, else "Failed to load trip"; loading ends |
| Home.TakeTwo | frontend/src/pages/Home/Home.jsx:14 | `slice(0, 2)` is a prefix of at most two characters, all of the string when it is shorter |
| Home.InitialsOf | frontend/src/pages/Home/Home.jsx:8-14 | the chain gives at most two characters and no lower-case letter |
| Home.GetInitialsAsWritten | frontend/src/pages/Home/Home.jsx:6-15 | `?` for a missing, empty or non-string name; at most two characters; no lower-case letter |
| Home.BlankNameHasNoInitials | frontend/src/pages/Home/Home.jsx:7-14 | a name of three spaces passes the guard and gives the empty string |
| Home.GetInitials | frontend/src/pages/Home/Home.jsx:6-15 | the corrected function: one or two characters, no lower-case letter, and `?` for a non-string or blank name |
| Home.CorrectionOnlyAffectsBlankNames | frontend/src/pages/Home/Home.jsx:6-15 | for every name with a non-whitespace character the correction agrees with the code as written |
| Home.FirstLettersOfWords | frontend/src/pages/Home/Home.jsx:11-12 | for non-empty words the joined first letters are one per word, in order |
| Home.SplitJoined | frontend/src/pages/Home/Home.jsx:10 | splitting words joined by any whitespace runs gives back the words |
| Home.InitialsOfWords | frontend/src/pages/Home/Home.jsx:8-14 | the initials are the upper-cased first letters of the first two words, or of the only word |
| Home.InitialsIgnoreSpacing | frontend/src/pages/Home/Home.jsx:9-10 | how much whitespace surrounds or separates the words never changes the result |
| Contact.AllCards | frontend/src/pages/Contact/Contact.jsx:62-89 | three cards, in the order email, GitHub, LinkedIn |
| Contact.KeepThree | frontend/src/pages/Contact/Contact.jsx:62-90 | the filtered three-card list is each card kept or dropped on its own, in order |
| Contact.ContactCards | frontend/src/pages/Contact/Contact.jsx:62-90 | at most three cards, in the order email, GitHub, LinkedIn, each with a value |
| Contact.ContactCardsMembers | frontend/src/pages/Contact/Contact.jsx:62-90 | a card is shown exactly when it is one of the three and has a value |
| Contact.ContactCardsContents | frontend/src/pages/Contact/Contact.jsx:62-90 | each card shows exactly when its value is non-empty. The email card's value is the address and it links to `mailto:` plus the address; the GitHub and LinkedIn cards carry `socials.github` and `socials.linkedin` and link to them; only the email card can be copied |
| Contact.AllThreeCards | frontend/src/pages/Contact/Contact.jsx:62-90 | with all three values present, all three cards show |
| Contact.NoInfoNoCards | frontend/src/pages/Contact/Contact.jsx:62-90 | without personal information there are no cards |
| Contact.ContactViewOf | frontend/src/pages/Contact/Contact.jsx:44-114 | loading first, then "Could not load contact info. " plus a non-empty error, then "No contact details" exactly when the card list is empty, else the cards |
| Contact.ContactPage.constructor | frontend/src/pages/Contact/Contact.jsx:20-23 | no information, loading, no error, not copied |
| Contact.ContactPage.View | frontend/src/pages/Contact/Contact.jsx:44-114 | the loading text exactly while loading, the error exactly when not loading and an error is present, and otherwise at most three cards, each with a value |
| Contact.ContactPage.Resolve | frontend/src/pages/Contact/Contact.jsx:28-30 | the information becomes the data and loading ends |
| Contact.ContactPage.Reject | frontend/src/pages/Contact/Contact.jsx:29-30 | the error becomes the message, else "Failed to load"; loading ends and the error view shows |
| Contact.ContactPage.HandleCopyEmail | frontend/src/pages/Contact/Contact.jsx:33-42 | without an email nothing changes; with one, `copied` is set exactly when the clipboard accepted it; `copied` only ever holds with an email present |
| Contact.ContactPage.CopiedTimeout | frontend/src/pages/Contact/Contact.jsx:38 | the timer clears `copied` and nothing else |

## Left out

- **Requests.** The promise chains, their `cancelled` flags and the API
  wrappers are not modelled. Each request is modelled by what the page does
  once it has settled: the data, or the status and message of the error.
- **Timers, clipboard, scroll, focus.** `setInterval`/`clearInterval`,
  `setTimeout`, the clipboard call, the scroll-to-bottom effect and input
  focus are runtime and browser concerns.
  - The timer callbacks are the methods `Travel.TravelPage.Tick` and
    `Contact.ContactPage.CopiedTimeout`.
  - The clipboard outcome is a parameter.
- **Rendering.** JSX markup, animation and CSS classes are not modelled. A
  screen or panel is modelled as a datatype naming what is shown.
- **`String(url)` coercion.** `normalizeImageUrl` coerces non-string values;
  this is not modelled. URLs are optional strings.
- **Whitespace and case.** `trim()` and `\s` use a fixed set of whitespace
  characters. `toLowerCase()`/`toUpperCase()` map the ASCII letters only.
- **UTF-16.** Strings are sequences of code points rather than UTF-16 code
  units, so a character outside the Basic Multilingual Plane is one
  character, where `word[0]` would return half of it.
- **Numbers.** Numbers are mathematical integers, with no NaN and no
  fractions. The slide index is a natural number.
- **Storage and document.** `localStorage`, `document.documentElement` and
  `document.body` are modelled as a map and two class sets held by
  `Theme.ThemeProvider`.
- **Pages outside this model.** The Travel page's own `loading`/`error`
  flags and its trip grid, the Projects, Skills, Achievements and Experience
  pages, the Navbar, the routing table and the styling configuration are
  not part of this model. They are fetch plus markup, or date formatting
  delegated to the runtime.
- **`content: null`.** The destructuring default `content = {}` applies only
  to `undefined`, so a project whose `content` is `null` makes the real page
  throw a TypeError at `content.overview`. `ProjectDetail.Project` treats it
  like a missing object, and the tabs fall back to the top-level fields.
- **Project images.** `ProjectDetail.Project` holds `images` as an optional
  list of strings. Other JSON values in that field are not modelled.
- **Falsy project data.** `ProjectDetail.ProjectDetailPage.OnLoaded` receives
  `None` for a falsy `res.data`. A truthy value that is not an object is read
  as a project with missing fields.
- **Command outputs.** The five command outputs of `runHelp` … `runContact`
  are the strings of `Terminal.ReplyText`. The help text's lines are joined with `\n` as
  `join('\n')` does.
- Theme.ThemeProvider.ApplyTheme: a stored theme containing whitespace,
  which `Theme.InitialTheme` accepts, makes `classList.add` throw an
  InvalidCharacterError. The model adds it as a class, because a class list
  is modelled as a set of strings.
- Travel.NormalizeSlide: a null entry in `heroSlides` makes `slide.image`
  throw. `Travel.RawSlide` has no null value, so the model does not
  represent that entry.
- Contact.ContactPage.Resolve: requires that nothing has been copied
  yet. On the page the information only arrives once, before any email
  exists to copy.

## Findings

| source | as written | input that shows it | evidently intended | confidence | as-written member | corrected member |
|---|---|---|---|---|---|---|
| frontend/src/pages/Home/Home.jsx:7-14 | the guard lets through any non-empty string, so a whitespace-only name is trimmed to `''`, split into `['']`, and its only piece has no first letter: the avatar shows the empty string | `getInitials('   ')` returns `''` | a name with no visible character gets the `?` placeholder, like a missing or empty one | not executed | Home.GetInitialsAsWritten, Home.BlankNameHasNoInitials | Home.GetInitials |
