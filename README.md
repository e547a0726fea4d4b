# Lottery admin dashboard: verified model of its logic

The dashboard is a small single-page admin front end, with user, draw and admin-account
screens and a sign-in flow. It comes with an offline script that fills `users.csv` with random
user records for seeding. This project models the parts of it that hold logic and proves what
they promise:

- **Seed-record generator** (`SeedData`, `seed_data.dfy`). It covers the random generators,
  `escapeCSV`, and the batched construction of the CSV document. Every
  `Math.floor(Math.random() * n)` draw is an argument whose type admits exactly the integers it
  can produce. Two draws are different: the coin `Math.random() > 0.5` becomes the choice
  between a Chinese character and a digit in each `CharPick`, and the area lookup's draws
  become the province and city strings themselves. The main results are:
  - the format guarantees of each generator;
  - the escape/unescape round trip;
  - `GenerateData` equals the header line followed by one line per
    generated user. Its batch loop holds two inner loops in turn: `GenerateBatch` generates the
    batch's records, then `AppendRows` writes their lines;
  - reading that document with an RFC 4180-style reader whose records end at a line feed
    gives back the header and each
    user's seven values.

  RFC 4180 (section 2, rules 1 and 2) ends records with CRLF. The script writes a bare line
  feed after every line, so the reference reader ends a record at a line feed instead.
  `escapeCSV` quotes a field only for a comma, a double quote or a line feed, not for a lone
  carriage return. The reference reader therefore ends an unquoted field only at a comma or a
  line feed, the way lenient readers do. Under that reading the round trip holds for every
  input. A reader that treats a bare CR as a line break would split such a field.
- **Route table and navigation guard** (`Router`, `routes.dfy`). The table is data: the constant `Router.Routes` holds the records of src/router.ts:6-57, and `ShippedTargets` states what resolves in it. The
  `beforeEach` guard is a total function from the resolved target and the session token to one
  of three decisions, so exactly one call of `next` happens per navigation.
- **Session store** (`UserStore`, `user_store.dfy`). A class whose `userInfo` is patched by
  `signIn` and reset by `logout`. The HTTP answers are arguments.
- **Menu building** (`Menu`, `menu.dfy`). `createMenu` and `resolveKeepAliveRouteNames` are
  recursive methods that push into lists. `createMenu` takes its list as an argument, as in
  the source. `resolveKeepAliveRouteNames` pushes into the module-level `keepAliveRouteNames`
  in the source; here that list is passed in, and `Initialize` creates it. Each is proved equal to a
  specification function, and those functions are related to independent definitions: the
  filtered route list, and a post-order walk of the tree.
- **Paginated table** (`UseTable`, `use_table.dfy`). A class holding the page, the page size,
  `loading`, `data` and the filters. The server's answer to a request is an argument, so each
  `tableGet` runs as one sequential step. It is split at the `await`, so `loading` can be seen
  raised while the request is out.

## Model

| member | source | states |
|---|---|---|
| SeedData.DecimalString | generate-data.mjs:82 | `String(n)` for n up to 2^53 - 1 is a non-empty digit string without a leading zero when n ≥ 10 |
| SeedData.DecimalStringValue | generate-data.mjs:82 | reading `String(n)` back as a decimal number gives n |
| SeedData.DecimalStringLength | generate-data.mjs:47 | a number below 10^k prints in at most k digits, so the phone draw fits the ten-digit pad |
| SeedData.LeadingZerosValue | generate-data.mjs:47 | zero padding in front of a digit string keeps it all digits and keeps its value |
| SeedData.PadStart | generate-data.mjs:47 | `padStart` fills on the left up to the width and keeps the string as the suffix; a longer string is unchanged |
| SeedData.PickText | generate-data.mjs:22-28 | each position appends exactly one character |
| SeedData.PickTextClass | generate-data.mjs:22-28 | that character is from the common character set or a digit |
| SeedData.GenerateName | generate-data.mjs:35-43 | definition, no contract: the chosen surname followed by the chosen given name |
| SeedData.ChineseNumberString | generate-data.mjs:17-32 | the result's length is min plus the length draw, so it lies in [min, max] |
| SeedData.ChineseNumberStringClass | generate-data.mjs:14-32 | every character of the result is a common Chinese character or a digit |
| SeedData.GenerateChineseNumberString | generate-data.mjs:17-32 | the appending loop returns exactly the string the draws specify |
| SeedData.GeneratePhone | generate-data.mjs:46-48 | 11 characters, all digits, starting with `1`, and the last ten digits denote the draw |
| SeedData.GenerateUser | generate-data.mjs:63-75 | draw count 4; phone of the above shape; community 3..8 and house number 2..6 characters long; province and city as looked up |
| SeedData.GenerateUserText | generate-data.mjs:70-71 | community and house number consist of common Chinese characters and digits only |
| SeedData.DoubleQuotes | generate-data.mjs:84 | a string without a double quote is unchanged, one with a double quote grows; `CollapseDoubled` is its inverse |
| SeedData.EscapeCsv | generate-data.mjs:78-81 | `null` and `undefined` escape to the empty string |
| SeedData.EscapePlain | generate-data.mjs:83-86 | a string without comma, double quote or line feed is returned unchanged |
| SeedData.EscapeQuoted | generate-data.mjs:83-85 | a string with one of them comes back wrapped in quotes around the string with every quote doubled, and collapsing the doubled quotes inside gives it back |
| SeedData.CollapseDoubled | generate-data.mjs:84 | collapsing `""` to `"` undoes doubling every quote |
| SeedData.EscapeRoundTrip | generate-data.mjs:78-87 | unescaping the escaped field gives `String(value)`, or the empty string for null and undefined |
| SeedData.JoinFields | generate-data.mjs:98 | definition, no contract: `join(',')`; `ReadRow` reads a joined row back |
| SeedData.Row | generate-data.mjs:120 | a row is non-empty and ends in a line feed |
| SeedData.HeaderLine | generate-data.mjs:97-98 | definition, no contract: the header names joined by commas, then a line feed; `HeaderLineIsRow` relates it to `Row` |
| SeedData.UserRow | generate-data.mjs:111-120 | definition, no contract: the row of a user's seven values; `ReadRow` reads it back |
| SeedData.Rows | generate-data.mjs:110-121 | definition, no contract: each user's line in order, as `csvContent +=` appends them; `RowsConcat` and `ReadRows` state its meaning |
| SeedData.CsvDocument | generate-data.mjs:98-120 | definition, no contract: the header line then the rows; `CsvRoundTrip` reads it back |
| SeedData.UserValues | generate-data.mjs:111-119 | a record has exactly as many values as the header has columns |
| SeedData.RowsAppend | generate-data.mjs:120 | one more user adds exactly that user's line at the end of the rows |
| SeedData.DocumentAppend | generate-data.mjs:98-120 | appending a user's line to the document gives the document of the list with that user appended |
| SeedData.Generated | generate-data.mjs:101-107 | one record per draw, the k-th made from the k-th draw |
| SeedData.UsersOf | generate-data.mjs:101-107 | the k-th record is `generateUser` run on the k-th draw |
| SeedData.GeneratedConcat | generate-data.mjs:101-107 | generating from two runs of draws in turn gives the two runs' records in order |
| SeedData.PushUser | generate-data.mjs:105-106 | pushing the next generated user extends the batch to the records of one more draw |
| SeedData.GenerateBatch | generate-data.mjs:102-107 | a batch is the records of its `BatchSize` draws, in order |
| SeedData.AppendRows | generate-data.mjs:110-121 | the writing loop appends the batch's lines, in order, to what was there |
| SeedData.RowsPrefix | generate-data.mjs:120 | the rows of one more user of a batch extend the rows so far by that user's line |
| SeedData.RowsConcat | generate-data.mjs:110-121 | the rows of two user lists in turn are the two lists' rows concatenated |
| SeedData.DocumentBatch | generate-data.mjs:101-125 | the rows of the records so far plus the next batch are the earlier rows followed by the batch's rows |
| SeedData.GenerateData | generate-data.mjs:90-133 | the content written is the header line followed by one line per user generated from the draws, in order |
| SeedData.ReadUnquotedPlain | generate-data.mjs:86 | an unescaped field reads back as itself up to the next separator |
| SeedData.ReadQuotedDoubled | generate-data.mjs:84 | a quoted field with doubled quotes reads back as the original text, stopping at its closing quote |
| SeedData.ReadQuotedField | generate-data.mjs:83-85 | a quoted field reads back as the original text and leaves the separator after it |
| SeedData.ReadPlainField | generate-data.mjs:86 | a field that needed no quoting reads back as itself and leaves the separator after it |
| SeedData.ReadEscapedField | generate-data.mjs:78-87 | every escaped value reads back as its text and leaves the separator after it |
| SeedData.RowSingle | generate-data.mjs:120 | a one-value row is the escaped value and a line feed |
| SeedData.RowCons | generate-data.mjs:120 | a longer row is the first escaped value, a comma, and the row of the remaining values |
| SeedData.ReadRow | generate-data.mjs:111-120 | a comma-joined, line-feed-ended row of escaped values reads back as one record of exactly those texts |
| SeedData.EscapePlainTexts | generate-data.mjs:83-86 | strings that need no quoting are escaped to themselves and read back as themselves |
| SeedData.HeaderLineIsRow | generate-data.mjs:97-98 | the unescaped header line is the row of the header names, none of which needs quoting |
| SeedData.FieldRecords | generate-data.mjs:110-121 | the expected records hold each user's seven texts, in order |
| SeedData.ReadRows | generate-data.mjs:110-121 | the rows read back as one record per user, in order |
| SeedData.RowMatchesHeader | generate-data.mjs:97-120 | every data line ends in a line feed and has as many fields as the header |
| SeedData.CsvRoundTrip | generate-data.mjs:90-133 | the whole document reads back as the header record followed by each user's record |
| Router.Lookup | src/router.ts:6-57 | the name is found iff some record at any depth carries it; a found target has that name, and one below a public record is public |
| Router.Resolve | src/router.ts:6-57 | a name resolves in the shipped table iff some record of it carries the name, and to a target of that name |
| Router.HasToken | src/router.ts:71 | definition, no contract: a token is truthy exactly when it is not empty |
| Router.BeforeEach | src/router.ts:65-82 | redirect to `Login` iff the target needs a session and there is no token; redirect to `/` iff the target is `Login` and there is a token; otherwise proceed; always exactly one of the three |
| Router.ShippedTargets | src/router.ts:6-57 | in the shipped table `Login` and `NotFound` are public and `Home`, `User`, `Draw`, `AdminManage` need a session |
| Router.PublicRoutesProceed | src/router.ts:46-55 | without a token, navigating to `Login` or `NotFound` proceeds, so the redirect to `Login` cannot loop |
| Router.WithTokenOnlyLoginRedirects | src/router.ts:73-80 | with a token, a navigation is redirected iff it targets `Login`, and then to `/` |
| Router.NoRedirectLoop | src/router.ts:73-81 | every redirect target (`Login`; `/` = `Home`, itself redirecting to `AdminManage`) is let through by the guard with the same token |
| UserStore.Initial | src/store/user.ts:24-30 | the initial `userInfo` has no id and no token |
| UserStore.Patch | src/store/user.ts:36-38 | definition, no contract: the field-by-field merge; `PatchFields` states it |
| UserStore.PatchFields | src/store/user.ts:36-38 | each field present in the response overwrites the stored one; absent fields are untouched |
| UserStore.PatchIdempotent | src/store/user.ts:36-38 | patching with the same response twice equals patching once |
| UserStore.CompleteResponseDetermines | src/store/user.ts:36-38 | a response with all three fields fixes the state regardless of the previous one |
| UserStore.Store.constructor | src/store/user.ts:24-30 | a new store holds `id = null`, `username = ''`, `token = ''` |
| UserStore.Store.SignIn | src/store/user.ts:34-40 | success patches `userInfo` with the response and returns it; a rejection propagates and changes nothing |
| UserStore.Store.SignUp | src/store/user.ts:43-45 | returns the sign-up result and changes no state |
| UserStore.Store.Logout | src/store/user.ts:47-50 | resets to the initial state, returns true, and afterwards every route needing a session redirects to `Login` |
| UserStore.SignedOutGuard | src/store/user.ts:47-49 | in the reset state a navigation is redirected iff its target needs a session, and then to `Login` |
| UserStore.SignedInGuard | src/store/user.ts:34-40 | after a sign-in with a non-empty token every shipped route but `Login` proceeds, and `Login` redirects to `/` |
| Menu.PushList.Push | src/menu.ts:43 | `push` appends one element at the end |
| Menu.MenuOf | src/menu.ts:23-46 | one level of the menu has at most as many items as there are routes |
| Menu.MenuOfConcat | src/menu.ts:24-45 | the menu of two route lists in turn is their menus concatenated |
| Menu.MenuOfStep | src/menu.ts:25-43 | one more route appends nothing if it has no `meta` or is hidden, a parent item with plain label and recursive children, or a leaf item with a link to itself |
| Menu.CreateMenu | src/menu.ts:23-46 | `createMenu` only appends, and what it appends is the menu of the routes |
| Menu.Visible | src/menu.ts:26 | the routes that belong in the menu are routes of the list with `meta` and not hidden |
| Menu.MenuMatchesVisible | src/menu.ts:23-46 | the k-th item comes from the k-th visible route, so order is kept; key and icon are the route's; a parent gets its label and its children's menu, a leaf a link |
| Menu.KeepAliveOf | src/menu.ts:53-63 | definition, no contract: each route's descendants' names, then its own name if kept alive; `KeepAliveIsPostOrder` relates it to the post-order walk |
| Menu.KeepAliveOfConcat | src/menu.ts:54-62 | the names of two route lists in turn are their names concatenated |
| Menu.KeepAliveOfStep | src/menu.ts:55-61 | one more route adds its descendants' names, then its own name if it sets `keepAlive` |
| Menu.ResolveKeepAliveRouteNames | src/menu.ts:53-63 | only appends, and what it appends is the kept-alive names of the tree |
| Menu.KeptAliveNames | src/menu.ts:59-60 | a name is collected iff some listed record with that name sets `keepAlive` |
| Menu.KeepAliveIsPostOrder | src/menu.ts:53-63 | the collected names are the post-order walk of the tree filtered by `keepAlive`, so descendants come before parents |
| Menu.KeepAliveMembership | src/menu.ts:53-63 | a name is collected iff a record with that name at some depth sets `keepAlive` |
| Menu.PostOrderCovers | src/menu.ts:56-57 | the walk contains every route of the list and everything below it |
| Menu.ShippedMenuItems | src/menu.ts:48 | for the shipped table the menu is `User`, `Draw`, `AdminManage` as links with their keys, labels and icon |
| Menu.ShippedKeepAlive | src/menu.ts:65 | for the shipped table no route name is kept alive |
| Menu.Initialize | src/menu.ts:48-65 | module start-up yields exactly that menu and an empty kept-alive list |
| UseTable.InitialPageSize | src/composables/useTable.ts:21 | the configured page size unless it is missing or zero, then 10 |
| UseTable.MethodOf | src/composables/useTable.ts:43 | POST iff the method option is `post`, GET otherwise |
| UseTable.RequestParams | src/composables/useTable.ts:48-54 | the parameters are `page` and `pageSize` plus every filter key; filter values win on a clash |
| UseTable.FilterParams | src/composables/useTable.ts:45 | the filters run through `transformFilters` when it is given, the filters unchanged otherwise |
| UseTable.Table.CurrentRequest | src/composables/useTable.ts:43-54 | definition, no contract: the method, the URL and the merged parameters for the current page, size and filters |
| UseTable.Table.constructor | src/composables/useTable.ts:15-36 | not loading, no data, page 1, the initial page size, and the configured filters |
| UseTable.Table.BeginFetch | src/composables/useTable.ts:38-55 | `loading` is raised, a reload resets the page to 1, and the request is built from the current state |
| UseTable.Table.EndFetch | src/composables/useTable.ts:56-61 | success replaces `data`; failure keeps it and shows the message; `loading` is false either way |
| UseTable.Table.TableGet | src/composables/useTable.ts:38-62 | the whole fetch: the page reset on reload, the request sent, `data` as the server answered, `loading` false at the end |
| UseTable.Table.OnChange | src/composables/useTable.ts:24-27 | sets the page, keeps the size, fetches with the new page |
| UseTable.Table.OnUpdatePageSize | src/composables/useTable.ts:28-32 | sets the size, resets the page to 1, fetches with both |

## Left out

- File I/O is not modelled: reading `area.json` and writing `users.csv`. `GenerateData` returns the content that is written.
- `console.log` progress output and its `toFixed` percentage are not modelled, because they are output and floating point.
- `Math.random` becomes arguments: integers constrained to the values `Math.floor(Math.random() * n)` yields, the `Han`/`Digit` choice of a `CharPick` for the coin `Math.random() > 0.5`, and the province and city strings for the area lookup.
- SeedData.EscapeCsv: values are strings, natural numbers up to `Number.MAX_SAFE_INTEGER` (2^53 - 1), `null` and `undefined`. `String(value)` of larger, negative or fractional numbers, booleans and objects is not modelled; the script passes only strings and the draw count 4.
- SeedData.DecimalString: equals `String(n)` only for n up to 2^53 - 1. Above it JavaScript prints the rounded double, and from 10^21 on exponent form; the model uses it only for digits, phone draws below 10^10 and `Number` values, which are bounded by 2^53 - 1.
- SeedData.PadStart: counts characters, while `padStart` counts UTF-16 code units, so a string with a character outside the Basic Multilingual Plane pads differently. The script pads only digit strings, where the two agree.
- `getRandomProvinceAndCity` is not modelled, because it depends on the contents of `area.json`. The province and city are part of each user's draws.
- GenerateName: modelled without a contract. It is the concatenation of a surname and a given name taken from the fixed lists. Length facts about the names are not stated.
- SeedData.PickText: the character class of the picked character is stated in `PickTextClass`, not in its own contract.
- SeedData.ChineseNumberString: the character class of the result is stated in `ChineseNumberStringClass`, not in its own contract.
- The batch helpers (`Generated`, `PushUser`, `GenerateBatch`, `DocumentBatch`) take the record generator as a parameter. `GenerateData` instantiates them with `GenerateUser`.
- GenerateUser: the character classes of the community and house-number strings are proved in `GenerateUserText` rather than in its own contract.
- Router.Route: every record has a `name`. In the source, an unnamed record with `keepAlive` makes `route.name.toString()` throw at module load (src/menu.ts:60), and so does an unnamed menu leaf when its link renders (src/menu.ts:16). The model has no such error path; the shipped table names every record.
- Route components, lazy imports and hash history are left out.
- vue-router's path matching is left out: the guard receives the resolved target, meaning its name and the merged `noAuth` flag.
- Router.Lookup: merges `noAuth` as "set on the record or an ancestor". A child explicitly setting `noAuth: false` under a public parent is not modelled; the shipped table has none.
- The HTTP calls behind `signIn` and `signUp` are arguments (`Outcome`).
- UserStore.Store.SignIn: the response is modelled as a record with three optional fields. Extra fields, or a missing body that pinia would store as is, are not modelled.
- Persisting the store in session storage is not part of this model (src/main.ts).
- `renderIcon` and `renderRouterLabel` build UI nodes. Labels become `Text`/`Link` tags and icons become the icon component's name.
- Concurrent, overlapping `tableGet` calls racing on `data` are not modelled. Each call is one sequential step with the server's answer supplied.
- UseTable.InitialPageSize: a `NaN` page size, which `|| 10` would also replace, is not modelled because sizes are integers.
- UseTable.FilterParams: `transformFilters` is a total function. In the source it runs inside the `try`, so a throwing transform has its message shown, keeps `data` and clears `loading`. The model has no such path.
- The error toast in `useTable` is modelled as the message the fetch returns for display.
- src/api.ts (axios interceptors, envelope unwrapping) is not part of this model, because its behaviour depends on axios.
- vite.config.ts, the type declarations and the message helper in src/utils are not part of this model; they hold no logic.
