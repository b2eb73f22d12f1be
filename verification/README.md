# Post cards: author lookup, date branch and layout style

A model of the decision logic in a small React front end that shows posts as cards.
The front end gets posts, author records and display settings from three endpoints. The
model covers the three pure decisions it makes with that data:

- **Author lookup** (`findAuthorByPostId` in `PostCard`). The card scans the author
  records in order. It shows the `username` of the first record whose `postId` equals
  the post's `id`, or `null` when no record matches.
- **Date branch** (`formatDate` in `PostCard`). It counts the whole days between the post
  date and now, rounding down. Fewer than 7 days gives a relative phrase. Otherwise it
  gives a `dd/MM/yyyy` calendar date.
- **Layout style**. The card's `layoutStyles` table and its selection, plus the
  container's own copy of that derivation in `App`. When `layout.current` is exactly
  `"grid"`, the style is `display: grid`, `gridTemplateColumns: repeat(N, 1fr)` and
  `gap: 1rem`, with N the grid column count. Any other string uses the masonry column
  count and adds `gridAutoFlow: dense`. While settings are absent, the container's
  style is `{}`.

Modules:

- `Wrappers`: `Option`, which stands for `null`/`undefined`.
- `Decimal`: the plain decimal numeral of a non-negative integer, which is what a
  template literal writes for safe integers (at most 2^53 - 1), and the function that reads
  it back.
- `Entities`: `Post`, `User`, `Settings` and the parameters of the mode in effect
  (`ActiveParams`: the grid parameters when `current` is exactly "grid", the masonry
  parameters for every other string). Both
  source files declare these types; here they are declared once.
- `CssStyle`: the style object, restricted to the four properties the layout code
  writes, each optional. It also holds the `repeat(N, 1fr)` template and its reader.
- `PostCard`: the author lookup, the date branch and the card's layout entry.
- `AppEntry`: the container style, and a settings response replacing the settings
  snapshot.

Choices that follow the code:

- An unknown `layout.current` is not rejected. The code uses masonry for every value
  other than `"grid"` (client/src/app/app-entry.tsx:91-102,
  client/src/entities/posts/ui/PostCard.tsx:87-89), and so does the model.
- `columns` may be 0: the code builds `repeat(0, 1fr)`, so the model takes any `nat`.
- The props type declares `users` as one object. The code calls `.find` on it, and `App`
  passes an array. The model takes a sequence.

Every function here is pure, so the lookup cannot change the author sequence it scans.

## Model

| member | source | states |
|---|---|---|
| Decimal.FromNat | client/src/entities/posts/ui/PostCard.tsx:66 | the numeral interpolated for a column count (a safe integer) is non-empty, all digits, and has no leading zero; it starts with '0' exactly when the count is 0 |
| Decimal.ToNatFromNat | client/src/entities/posts/ui/PostCard.tsx:66 | reading the interpolated numeral back as decimal gives the column count |
| Decimal.FromNatToNat | client/src/entities/posts/ui/PostCard.tsx:66 | every canonical numeral is the interpolation of its own value, so the interpolation is onto the canonical numerals |
| Decimal.FromNatInjective | client/src/entities/posts/ui/PostCard.tsx:66 | different column counts are written as different numerals |
| CssStyle.RepeatTemplate | client/src/entities/posts/ui/PostCard.tsx:66-71 | the template literal `repeat(${N}, 1fr)`; the column count N can always be read back out of it |
| CssStyle.TemplateParseSound | client/src/app/app-entry.tsx:94-99 | any string that reads as a template with count N is exactly `repeat(N, 1fr)`, so the template and its reader are mutual inverses |
| CssStyle.RepeatTemplateInjective | client/src/app/app-entry.tsx:94-99 | different column counts give different templates |
| PostCard.FindAuthorByPostId | client/src/entities/posts/ui/PostCard.tsx:41-47 | returns null exactly when no author's `postId` equals the key, so an empty sequence gives null; otherwise returns the username of an author at the lowest matching index |
| PostCard.FindAuthorReturnsFirstMatch | client/src/entities/posts/ui/PostCard.tsx:45-46 | when index i is the first match, the result is that author's username, whatever matches come later |
| PostCard.FindAuthorInConcatenation | client/src/entities/posts/ui/PostCard.tsx:45 | searching a + b gives a's answer when a has a match, and b's answer otherwise: order of supply breaks ties |
| PostCard.FindAuthorScan | client/src/entities/posts/ui/PostCard.tsx:45 | the front-to-back scan that stops at the first match returns the lookup's result |
| PostCard.CardAuthor | client/src/entities/posts/ui/PostCard.tsx:157 | the card names an author exactly when some record's `postId` is the post's `id`, and the name is the username of the first such record |
| PostCard.CardAuthorIgnoresUserId | client/src/entities/posts/ui/PostCard.tsx:157 | changing the post's `userId` never changes the author shown |
| PostCard.ExampleUserIdNotFollowed | client/src/entities/posts/ui/PostCard.tsx:157 | a record whose `id` is the post's `userId`, but whose `postId` is some other post, is not shown as the author |
| PostCard.JsFloorIsEuclideanDivision | client/src/entities/posts/ui/PostCard.tsx:52-54 | for a positive divisor, `Math.floor(a / b)` (the greatest q with q*b <= a) is Dafny's `a / b`, and it is the only such q |
| PostCard.DaysDifference | client/src/entities/posts/ui/PostCard.tsx:52-54 | the day difference d satisfies d*86400000 <= now - date < (d+1)*86400000 |
| PostCard.FormatDate | client/src/entities/posts/ui/PostCard.tsx:49-61 | the branch formats the post's own date, and is relative exactly when now - date < 7*86400000 ms |
| PostCard.FormatDateThreshold | client/src/entities/posts/ui/PostCard.tsx:56-60 | 7 days minus 1 ms is relative; exactly 7 days is absolute |
| PostCard.FutureDateIsRelative | client/src/entities/posts/ui/PostCard.tsx:52-57 | a date after now has a negative day difference and takes the relative branch |
| PostCard.AbsoluteIsMonotone | client/src/entities/posts/ui/PostCard.tsx:52-60 | if a date is shown as a calendar date, so is every earlier date, and so is the same date at every later now |
| PostCard.LayoutStyles | client/src/entities/posts/ui/PostCard.tsx:63-75 | both entries have display grid and gap 1rem; only the masonry entry has `gridAutoFlow`, and it is "dense", so the two entries differ; each template reads back as its own mode's column count |
| PostCard.CardLayoutStyle | client/src/entities/posts/ui/PostCard.tsx:63-89 | the card takes the grid entry exactly when `current` is "grid", and the masonry entry otherwise; `gridAutoFlow` is absent exactly for "grid", and "dense" otherwise; display is grid and gap is 1rem; the template reads back as the column count of the mode in effect (`Entities.ActiveParams`: grid for exactly "grid", masonry for every other string) |
| AppEntry.ContainerStyle | client/src/app/app-entry.tsx:90-103 | the style is `{}` exactly when settings are absent; when present, display is grid and gap is 1rem; `gridAutoFlow` is absent exactly for "grid", and is "dense" for every other string; the template reads back as the active mode's column count |
| AppEntry.ContainerAgreesWithCard | client/src/app/app-entry.tsx:90-103 | for present settings, the container's style equals the entry each card selects |
| AppEntry.ContainerStyleDependsOnlyOnActiveColumns | client/src/app/app-entry.tsx:90-103 | settings that agree on whether the mode is "grid", and on the active column count, give equal styles, whatever the other mode's params, the rows, `template` or `navigation` |
| AppEntry.ContainerStyleDeterminesActiveColumns | client/src/app/app-entry.tsx:90-103 | equal styles come from settings that agree on whether the mode is "grid" and on the active column count |
| AppEntry.ReceiveSettings | client/src/app/app-entry.tsx:65-90 | a settings response leaves posts and users alone; a parsed response replaces the settings snapshot wholesale, so the new style is the one derived from the response alone, and is never `{}`; a failed request leaves the whole state as it was |
| AppEntry.ReceivePosts | client/src/app/app-entry.tsx:45-53 | a posts response leaves users and settings alone; a parsed response replaces the posts; a failed request leaves the state as it was |
| PostCard.CardLayoutAsWritten | client/src/entities/posts/ui/PostCard.tsx:63-89 | the card's layout throws exactly when settings are undefined; otherwise it has display grid and gap 1rem, `gridAutoFlow` absent exactly for "grid" and "dense" otherwise, and a template that reads back as the active mode's column count, which together pin the selected entry |
| AppEntry.CardLayoutsAsWritten | client/src/app/app-entry.tsx:110-117 | one card per post; some card throws exactly when there are posts but settings are undefined; every card that renders carries the container's style |
| AppEntry.PostsBeforeSettingsThrow | client/src/app/app-entry.tsx:110-116 | when the posts response arrives before the settings response, a card's render throws |
| PostCard.CardLayoutGuarded | client/src/app/app-entry.tsx:90-103 | the corrected card: `{}` while settings are undefined, and otherwise exactly what the unguarded card returns |
| AppEntry.CardLayoutsGuarded | client/src/app/app-entry.tsx:90-117 | one guarded card layout per post, and every one equals the container's style for every settings state, absent settings included, so rendering never throws |
| AppEntry.ExampleThreeGridColumns | client/src/app/app-entry.tsx:91-96 | grid mode with 3 columns gives `{display: grid, gridTemplateColumns: repeat(3, 1fr), gap: 1rem}` |

## Left out

- The three `fetch` calls, `response.json()`, `useEffect`/`useState`, console logging and
  the "Update Settings" button (client/src/app/app-entry.tsx:44-88, 105-120). These are
  network I/O and React state plumbing. A settings response enters the model only as an
  `Option` passed to `ReceiveSettings`.
- The JSX markup and the fixed CSS literals of the card (colours, padding, borders). They
  are presentation only. The layout entry is modelled on its own, not merged into the
  card's style object.
- The date-fns calls `parseISO`, `formatDistanceToNow` with the Russian locale, and
  `format(date, 'dd/MM/yyyy')`. Their text output, time-zone handling and result for
  invalid input come from a library that is not part of this model. Post dates are epoch
  milliseconds, and the output is the `DateBranch` tag with the date it would format.
- The clock read `new Date()`. It is the explicit `now` parameter instead.
- PostCard.DaysDifference: the subtraction and division are exact integer arithmetic.
  JavaScript divides in floating point, and that rounding is not modelled.
- PostCard.CardLayoutStyle: requires present settings. The throw on undefined settings is
  modelled separately, by `CardLayoutAsWritten` (see "## Findings").
- Non-integral or negative `columns` and `rows`. JavaScript numbers of those kinds would
  interpolate as other text, such as `2.5` or `-1`. Both are `nat` here. The card renders
  `likes` and `comments`; the model carries them but never reads them.
- Decimal.FromNat: writes plain digits for every `nat`. JavaScript writes exponent form
  from 10^21 on (`1e+21`). From 2^53 on it writes the shortest digits that identify the
  floating-point value, padded with zeros: `${2**64}` is `18446744073709552000`. The model
  agrees with the template literal only for safe integers (at most 2^53 - 1).
- AppEntry.ContainerAgreesWithCard: assumes both modes' params are present, as the declared
  `Settings` type requires. The card reads both `params.grid.columns` and
  `params.masonry.columns` while building its table (client/src/entities/posts/ui/PostCard.tsx:66,
  71), but the container reads only the active mode's (client/src/app/app-entry.tsx:94, 99).
  A settings document without the inactive mode gives the container a style and makes every
  card throw. The model cannot represent that document, and the same holds for
  `CardLayoutsAsWritten` and `CardLayoutsGuarded`.
- ReceiveSettings: assumes every parsed response is a settings object. A body that parses
  to JSON `null` would be stored as `null`, and the container style would then be `{}`.
- The props field `postId` in `PostCardProps`. It only serves as a type, and the card
  never reads it.

## Findings

| source | as written | input that shows it | evidently intended | confidence | as-written member | corrected member |
|---|---|---|---|---|---|---|
| client/src/app/app-entry.tsx:110-116 | `App` renders a `PostCard` for every post with `settings={settings}`, also while settings are still undefined, and the card reads `settings.layout` (client/src/entities/posts/ui/PostCard.tsx:66) | the posts response arrives first: state with one post and settings undefined | cards tolerate absent settings as the container does (`settings ? … : {}`), or are not rendered until settings arrive | medium, not executed | AppEntry.PostsBeforeSettingsThrow | AppEntry.CardLayoutsGuarded |
