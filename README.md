# Ágora Deportiva homepage — verified model of its logic

The repository is a single React page (`src/App.tsx`) for the Ágora Deportiva
podcast. Its behaviour, apart from markup and styling, is modelled here:

- **Link classification** (module `Links`, `links.dfy`). `isExternalHref`
  tests `/^https?:\/\//i`. The model spells this out as an anchored match of
  `http`, a greedy optional `s` (with backtracking) and `://`. Characters are
  compared by folding ASCII `A`-`Z` only. ECMAScript's case-insensitive
  matching without the `u` flag never lets a non-ASCII character (such as
  U+017F, which upper-cases to `S`) match an ASCII one, so that folding is
  exact. `externalLinkProps` gives `target="_blank"` and
  `rel="noopener noreferrer"`, or nothing. `SmartA` merges those attributes
  into its `<a>`.
- **Episode feed** (module `Episodes`, `episodes.dfy`):
  - the `Episode` record;
  - the one `episodes` state cell, as class `EpisodeFeed`: it starts empty,
    `setEpisodes` overwrites it on success, and a failure leaves it alone;
  - the derived `latest`;
  - the featured panel;
  - the card grid made by `episodes.map`;
  - the conditional cover image;
  - the string `formatDateEsCO` builds for the date runtime.
- `Wrappers` (`wrappers.dfy`) holds the `Option` type that stands for
  `undefined`/`null`.

`cover && <img …>` tests JavaScript truthiness. The model therefore shows a
cover image when `cover` is present *and* non-empty: an empty string renders
no image, just as an absent cover does. A failed load leaves the collection
*unchanged*, as the code does. A page mounts with an empty collection and
loads once, so after a failure the page is also empty.

## Model

| member | source | states |
|---|---|---|
| `Links.ConsumeLiteral` | src/App.tsx:27 | matching a literal piece of the pattern succeeds exactly when the input begins with it under ASCII case folding, and leaves exactly the rest of the input |
| `Links.IsExternalHref` | src/App.tsx:26-28 | the regex test itself: `http`, then `s` tried first and then skipped, then `://`, all anchored at position 0; its contract says a match is at least seven characters long and starts with `h`/`H`; its reference definition is in `IsExternalHrefIff` |
| `Links.IsExternalHrefIff` | src/App.tsx:26-28 | an href is external if and only if it begins with `http://` or `https://`, ASCII letters compared without case |
| `Links.ExternalIgnoresAsciiCase` | src/App.tsx:27 | two hrefs equal up to ASCII case are classified alike (the `i` flag) |
| `Links.ExternalAnchoredAtStart` | src/App.tsx:27 | if the first character is not `h`/`H`, the href is not external, whatever follows (the `^` anchor) |
| `Links.ExternalNeedsSeparator` | src/App.tsx:27 | every external href has `://` right after `http` or right after `https`: both slashes are mandatory |
| `Links.ExternalPrefixIsAscii` | src/App.tsx:27 | the first seven characters of an external href are ASCII: case folding never matches a non-ASCII character |
| `Links.ExternalIgnoresSuffix` | src/App.tsx:27 | the pattern has no end anchor: adding text after an external href keeps it external |
| `Links.HttpsUrlExternal` | src/App.tsx:27 | every string starting `https://` is external |
| `Links.OutboundUrlsExternal` | src/App.tsx:22-24 | the YouTube channel URL and the Spotify show URL are external |
| `Links.InPageHrefsNotExternal` | src/App.tsx:159-179 | none of the in-page anchors `#inicio`, `#episodios`, `#sobre`, `#contacto`, `#ultimo-episodio` or `#` is external (they also appear at lines 244, 335 and 539-541) |
| `Links.UpperCaseSchemeExternal` | src/App.tsx:27 | `HTTPS://x` is external |
| `Links.MixedCaseSchemeExternal` | src/App.tsx:27 | `Http://x` is external |
| `Links.TruncatedSeparatorsNotExternal` | src/App.tsx:27 | `http:/x`, `https:x` and `https:/` are not external |
| `Links.UnanchoredNotExternal` | src/App.tsx:27 | `see http://x`, which has the scheme only later, is not external; nor is `ftp://x` |
| `Links.LongSNotExternal` | src/App.tsx:27 | `http` followed by U+017F and `://x` is not external, although U+017F upper-cases to `S` |
| `Links.ExternalLinkProps` | src/App.tsx:30-34 | the attributes are either none or exactly `target="_blank"` and `rel="noopener noreferrer"`, with no third outcome; `target` and `rel` are present if and only if the href is external |
| `Links.ExternalLinkPropsByClass` | src/App.tsx:30-34 | hrefs with the same classification get identical attributes |
| `Links.SmartAnchor` | src/App.tsx:84-88 | the anchor keeps its own `href`; it has an `id` exactly when one is given; its other attributes are exactly `externalLinkProps(href)` |
| `Links.SmartAnchorOpensNewContextIff` | src/App.tsx:85 | an anchor opens in a new context without opener or referrer if and only if its href is external; otherwise it has neither `target` nor `rel` |
| `Episodes.CoverImage` | src/App.tsx:373-379 | there is an image exactly when `cover` is truthy (present and non-empty); its `src` is the cover and its `alt` is `Portada <title>` |
| `Episodes.DateOfStamp` | src/App.tsx:48 | a date read back from a stamp is the stamp minus the `T00:00:00Z` suffix |
| `Episodes.UtcMidnight` | src/App.tsx:48 | the stamp is the date followed by `T00:00:00Z`, and reading the date back from it with `DateOfStamp` gives `dateISO` |
| `Episodes.UtcMidnightInjective` | src/App.tsx:47-48 | distinct dates are never passed to the formatter as the same instant |
| `Episodes.ZoneFor` | src/App.tsx:49-53 | with no `timeZone` option, as here, the date is shown in the host's default time zone |
| `Episodes.FormatDateEsCO` | src/App.tsx:47-54 | the text is what the host runtime gives for the stamp `dateISO + "T00:00:00Z"` (from which `UtcMidnight`'s contract reads `dateISO` back), formatted with the es-CO options (numeric year, short month, 2-digit day) in the host's time zone |
| `Episodes.Latest` | src/App.tsx:148 | `latest` is null if and only if the collection is empty, and otherwise it is the element at index 0 |
| `Episodes.CardOf` | src/App.tsx:367-421 | a card shows the episode's id as its key, plus its title, `Con <guest>`, blurb, cover image and formatted date; its two links are exactly the `SmartA` attributes for the episode's YouTube and Spotify URLs, so by `SmartAnchor`'s contract they open in a new context exactly when those URLs are external |
| `Episodes.Cards` | src/App.tsx:367 | the grid (`episodes.map`) has one card per episode, and card `i` is episode `i`'s |
| `Episodes.FeaturedOf` | src/App.tsx:260-303 | the featured panel carries the anchor id `ultimo-episodio`, plus the episode's title, `Con <guest>`, blurb and cover image; its two links are the `SmartA` attributes for the episode's YouTube and Spotify URLs |
| `Episodes.Render` | src/App.tsx:148-367 | one render pass: the featured panel is rendered if and only if the collection is non-empty, and it is then the panel of element 0; the grid has one card per episode, card `i` being episode `i`'s |
| `Episodes.RenderCardsShowEpisodes` | src/App.tsx:367-389 | the number of cards equals the number of episodes, and they keep the same order; each card shows its episode's key, title, guest and the formatter's output for `date + "T00:00:00Z"` in `es-CO`; it has an image if and only if the cover is truthy |
| `Episodes.FeaturedIsFirstCard` | src/App.tsx:260-303 | for a non-empty collection, the first card shows the same title, byline, image, blurb and links as the featured panel |
| `Episodes.CardKeysUniqueIff` | src/App.tsx:369 | React's list keys are distinct if and only if the episode identifiers are |
| `Episodes.AfterLoad` | src/App.tsx:143-144 | after the load chain settles, the collection is the loaded data on success and the previous collection on failure |
| `Episodes.LoadReplacesWholesale` | src/App.tsx:143 | after a successful load, the collection is exactly the loaded data, whatever was there before (no merge) |
| `Episodes.FailureLeavesEpisodes` | src/App.tsx:144 | a failure leaves the collection unchanged, including after an earlier outcome |
| `Episodes.EmptyAndFailedLookAlike` | src/App.tsx:138-148 | from the initial state, an empty successful load and a failure render the same thing: no panel and no cards |
| `Episodes.EpisodeFeed.constructor` | src/App.tsx:138 | the state cell starts as the empty collection |
| `Episodes.EpisodeFeed.SetEpisodes` | src/App.tsx:143 | `setEpisodes(data)` makes the collection exactly `data` |
| `Episodes.EpisodeFeed.Settle` | src/App.tsx:141-144 | completing the load chain sets the collection to the loaded data on success and leaves it unchanged on failure |
| `Episodes.EpisodeFeed.LatestEpisode` | src/App.tsx:148 | the current `latest` is null exactly when the cell is empty, and otherwise it is element 0 |
| `Episodes.EpisodeFeed.View` | src/App.tsx:148-367 | the page rendered from the current cell: a featured panel exactly when the cell is non-empty, which is then element 0's, and one card per episode, card `i` being episode `i`'s |
| `Episodes.Mount` | src/App.tsx:137-148 | a mount first renders no panel and no cards; after the load settles, the page is the render of the loaded data (one card per loaded episode) on success, and still empty on failure |

## Left out

- All JSX markup, CSS classes, `COLORS`, icons, `Pill`, the inert contact form and the static navigation arrays: presentational only. `PrimaryLink` and `SecondaryLink` only style a `SmartA`, which is modelled.
- `fetch("/episodes.json")` and `res.json()`: network I/O and JSON parsing by the browser. The model keeps only their outcome, `Loaded(data)` or `Failed`. The code does not check the HTTP status, so any response whose body parses as an episode array counts as `Loaded`. A body that parses to something other than an array of episodes is not modelled.
- Promise chaining, `useEffect` scheduling (including a development-mode double run) and the timing of the update: these belong to React and the event loop. `Mount` models one load settling once.
- `console.error` in the failure branch: diagnostic output only.
- `Date` and `toLocaleDateString("es-CO", …)`: a foreign runtime with locale data. `FormatDateEsCO` takes that runtime (`DateHost`) as a parameter. Only the string `dateISO + "T00:00:00Z"` and the option values are modelled, so the example `2024-05-03` → `03 may 2024` is not proved.
- The time zone: no `timeZone` option is passed (src/App.tsx:49-53), so the UTC-midnight instant is shown in the host's own time zone, an explicit input of `DateHost`. The calendar arithmetic is not modelled, so the model does not show that a host west of UTC (Bogotá, UTC-5, say) would show `2024-05-03` as `02 may 2024`; the model does not prove that day shift.
- `new Date().getFullYear()` in the footer: it depends on the wall clock.
- The regular-expression engine in general: only the one pattern `/^https?:\/\//i` is expressed, as an explicit prefix match.
- Strings are sequences of Unicode scalar values, whereas JavaScript strings are UTF-16 code units. For this pattern the difference does not matter, because every character it accepts is ASCII.
- The CSS `line-clamp-3` that visually truncates a card's blurb: the model keeps the whole blurb.
- Uniqueness of episode identifiers: the page never checks it. `UniqueIds` states it, and `CardKeysUniqueIff` relates it to the React keys.
