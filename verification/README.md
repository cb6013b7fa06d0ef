# biz-atlas client core, modelled in Dafny

biz-atlas is a Next.js front end. It lets a signed-in founder pick competitors,
start an analysis, and read the resulting launch report. This project models
the parts of that client that hold state and make decisions:

- **Session store** (`lib/auth.ts`): a singleton that holds the JWT and the
  user. It mirrors them in local storage under `auth_token` and `auth_user`.
  It performs signup and login, builds the bearer header, and checks the
  token's `exp` claim against the clock (module `Auth`, class `AuthService`).
- **Auth context** (`lib/auth-context.tsx`): the React state kept beside the
  store. It holds `user`, `isAuthenticated` and `isLoading`, and
  `isAuthenticated` always matches "a user is present" (module `AuthContext`).
- **Report page** (`app/dashboard-b/page.tsx`): it requests the complete
  analysis. A cached report is shown at once. A queued task is polled until it
  completes or fails. A failed status request always shows the fixed text
  "Failed to get analysis status. Please refresh the page." The page then
  renders error, loader, "no data" or one of six sections. The state is
  modelled as pure step functions on a `PageState` value. A class
  `ReportDashboard` drives them one event at a time (module `ReportPage`).
- **Competitor picker** (`app/competitors/page.tsx`): it starts with the six
  built-in cards and nothing selected. A card can be removed or its selection
  toggled, "Analyze" works only with a selection, and the list can be restored
  (module `Competitors`).
- **Loading-screen puzzles** (`components/loader/NewspaperLoader.tsx`):
  - a 4×4 sudoku (`Sudoku`);
  - a 5×5 crossword with arrow-key navigation (`Crossword`);
  - a drag-to-reorder word jumble (`Jumble`);
  - the overlay that picks an unsolved puzzle at random and shows "all solved"
    once the three are done (`PuzzleLoader`).

`wrappers.dfy` holds the `Option` type and the `NoDuplicates` predicate that
the modules share.

Network replies, the clock, JWT decoding and `Math.random` are inputs to the
model:
- a fetch is a `Reply`, `AnalysisReply` or `PollReply` value handed to the
  method that receives it;
- the clock is a millisecond count;
- JWT decoding is a function parameter `decode`;
- a random choice is left open with `:|`, or is the constructor argument of
  the jumble.

## Model

| member | source | states |
|---|---|---|
| Auth.AuthService.constructor | lib/auth.ts:38-52 | The token is read from storage. A non-empty stored user text is parsed. A parse error clears the token, the user and both storage keys. Otherwise storage is left untouched. The storage invariant holds afterwards. |
| Auth.AuthService.Receive | lib/auth.ts:62-113 | The body shared by signup and login. A body is returned as it came. A thrown fetch or parse yields `success: false` with the fixed network-error text. Only a reply with `success` and `data` replaces token, user and both storage entries. Anything else changes nothing. |
| Auth.AuthService.Signup | lib/auth.ts:62-86 | As `Receive`, with the signup network-error text. |
| Auth.AuthService.Login | lib/auth.ts:89-113 | As `Receive`, with the login network-error text. |
| Auth.AuthService.SetAuth | lib/auth.ts:116-124 | Sets token and user and writes `auth_token` and `auth_user`, so storage equals memory. The session is then authenticated exactly when the token is non-empty, and the header carries that token back. |
| Auth.AuthService.ClearAuth | lib/auth.ts:127-135 | Token and user become null and both keys leave storage. Nothing else in storage changes. The session is then unauthenticated and gets no header. |
| Auth.AuthService.Logout | lib/auth.ts:138-140 | The same effect as `clearAuth`. |
| Auth.AuthService.IsAuthenticated | lib/auth.ts:153-155 | True iff the token is non-empty and a user is present. Being authenticated implies that an authorization header exists. |
| Auth.AuthService.GetAuthHeader | lib/auth.ts:158-163 | A header exists iff the token is non-empty. Its value is `Bearer ` followed by the token. |
| Auth.AuthService.HeaderRoundTrip | lib/auth.ts:158-163 | Stripping `Bearer ` from the header gives back exactly the stored token, and no header gives no token. |
| Auth.ExpiredAt | lib/auth.ts:171-172 | Comparing `exp*1000` with the millisecond clock in integers agrees with `exp < now/1000` in exact arithmetic. |
| Auth.PayloadExpired | lib/auth.ts:169-176 | An undecodable token is expired. A missing `exp` is never expired, because an undefined value compares false. Otherwise the token is expired iff `exp < now/1000`. |
| Auth.AuthService.IsTokenExpired | lib/auth.ts:166-177 | No token, or an empty one, is expired. Otherwise the outcome is the decoded payload's verdict, case by case. |
| Auth.AuthService.CheckTokenValidity | lib/auth.ts:180-186 | Valid iff not expired. An expired session is cleared from memory and storage. A valid session is untouched and yields a bearer header. |
| AuthContext.AuthProvider.constructor | lib/auth-context.tsx:19-22 | The context starts with no user, not authenticated, and loading. |
| AuthContext.AuthProvider.CheckAuth | lib/auth-context.tsx:24-38 | An expired token clears the store's token and user, removes both storage keys and clears the context user. A valid token copies the store's user, leaves the store unchanged, and sets `isAuthenticated` to "user present". Loading ends either way. |
| AuthContext.AuthProvider.Login | lib/auth-context.tsx:44-58 | The result is true iff a body with `success` came back. On true the user is re-read from the store: the new session's user when `data` was present, the previous user otherwise. A reply with `success` and `data` leaves the store holding the reply's token and user, with both storage keys written. Any other reply leaves the store's token, user and storage unchanged, and on false the context is unchanged too. |
| AuthContext.AuthProvider.Signup | lib/auth-context.tsx:60-74 | The same contract as `login`, for signup. |
| AuthContext.AuthProvider.Logout | lib/auth-context.tsx:76-80 | The store is cleared, both storage keys are removed, and the context has no user and is not authenticated. |
| AuthContext.AuthProvider.GetAuthHeader | lib/auth-context.tsx:82-84 | This is the store's header: present iff the token is non-empty, and it carries that token back. |
| ReportPage.Mounted | app/dashboard-b/page.tsx:64-68 | The initial page state satisfies the page invariant, and the complete-analysis request is out. |
| ReportPage.AfterAnalysis | app/dashboard-b/page.tsx:73-108 | `success && data` gives the report, with no polls. Otherwise a truthy `taskId` gives a pending task status, with exactly one poll scheduled for that id. Anything else sets the error to the thrown message: "Failed to fetch report data", the body's message or "Unknown error occurred", or the exception's message or "An error occurred". These three outcomes are exhaustive and mutually exclusive. |
| ReportPage.AfterPoll | app/dashboard-b/page.tsx:110-143 | A successful body records its task status. Completed with a result gives the result's data. Failed gives "Analysis failed. Please try again.". Any other status schedules exactly one more poll for the same id. A non-ok response, an unsuccessful body or an exception gives "Failed to get analysis status. Please refresh the page." and leaves the task status as it was. |
| ReportPage.AnalysisErrorText | app/dashboard-b/page.tsx:78-106 | A non-ok response gives "Failed to fetch report data". A body gives its `message` when non-empty and "Unknown error occurred" otherwise. A thrown `Error` gives its message, and anything else thrown gives "An error occurred". The text is empty only for a thrown `Error` with an empty message. |
| ReportPage.RunPolls | app/dashboard-b/page.tsx:110-143 | The self-rescheduling poll: replies are consumed one per status request while a poll is scheduled. It stops only when the replies run out or no poll is scheduled, and the page invariant holds throughout. |
| ReportPage.TerminalAbsorbs | app/dashboard-b/page.tsx:125-141 | Once the report is in or an error is set, no further status request is made. |
| ReportPage.PollsIndefinitely | app/dashboard-b/page.tsx:131-134 | A task that never completes or fails is polled once per reply, with no upper bound. |
| ReportPage.PollsUntilEnd | app/dashboard-b/page.tsx:110-143 | After n waiting replies and one ending reply, exactly n+1 replies are consumed and nothing after them. The page ends with the report iff the ending reply completes; otherwise it ends in error. |
| ReportPage.ThreeStatusRequests | app/dashboard-b/page.tsx:89-134 | Queued, then pending, pending and completed: three status requests, then the report. |
| ReportPage.ViewOf | app/dashboard-b/page.tsx:165-216 | The early returns in order: the error panel shows iff the error is non-empty. Without one, the loader shows iff loading. Past both, the current section shows when a report is present and "No Data" otherwise. |
| ReportPage.ViewByPhase | app/dashboard-b/page.tsx:165-216 | The loader shows while the request or a poll is out. An error shows the error panel, or "No Data" when its text is empty. A finished page shows its section, or "No Data" when the completed task carried no data. |
| ReportPage.PagingInverse | app/dashboard-b/page.tsx:149-159 | Next then previous returns to the page, except from the last one. Previous then next returns to it, except from the first. |
| ReportPage.NextPage | app/dashboard-b/page.tsx:149-153 | The page stays among the six sections and advances by one unless it is on the last. |
| ReportPage.PrevPage | app/dashboard-b/page.tsx:155-159 | The page stays among the six sections and goes back by one unless it is on the first. |
| ReportPage.ReportDashboard.constructor | app/dashboard-b/page.tsx:64-68 | The component's state is `Mounted()`. |
| ReportPage.ReportDashboard.OnAnalysis | app/dashboard-b/page.tsx:73-108 | The new state is `AfterAnalysis` of the old state and the reply, and the invariant is kept. |
| ReportPage.ReportDashboard.OnTaskStatus | app/dashboard-b/page.tsx:110-143 | The new state is `AfterPoll` of the old state and the reply, and the invariant is kept. |
| ReportPage.ReportDashboard.NextPageClicked | app/dashboard-b/page.tsx:149-153 | The current page becomes `NextPage` of the old one, and the invariant is kept. |
| ReportPage.ReportDashboard.PrevPageClicked | app/dashboard-b/page.tsx:155-159 | The current page becomes `PrevPage` of the old one, and the invariant is kept. |
| ReportPage.ReportDashboard.GoToPage | app/dashboard-b/page.tsx:161-163 | The chosen section becomes current. |
| Competitors.Without | app/competitors/page.tsx:25 | Filtering an id keeps exactly the other members, never lengthens the list, and keeps it duplicate-free. |
| Competitors.DropCompetitor | app/competitors/page.tsx:24 | Filtering a card keeps exactly the cards with another id. |
| Competitors.DropCompetitorIds | app/competitors/page.tsx:23-26 | The card filter and the id filter agree: the ids left are the old ids without `id`. |
| Competitors.WithoutDeletesPosition | app/competitors/page.tsx:31 | On a duplicate-free selection, the filter deletes exactly the one position holding `id` and keeps the others in order. |
| Competitors.WithoutAbsent | app/competitors/page.tsx:31 | Filtering an id that is absent changes nothing. |
| Competitors.Toggle | app/competitors/page.tsx:28-34 | After the toggle, `id` is selected iff it was not. Every other id is unaffected, the list stays duplicate-free, and a newly selected id goes last. |
| Competitors.ToggleTwiceAbsent | app/competitors/page.tsx:28-34 | Toggling an unselected id twice restores the selection exactly. |
| Competitors.ToggleTwicePresent | app/competitors/page.tsx:28-34 | Toggling a selected id twice restores the same multiset of ids, with `id` moved last. |
| Competitors.ToggleTwiceReorders | app/competitors/page.tsx:28-34 | The order can change: toggling 1 twice in [1, 2] gives [2, 1]. |
| Competitors.NothingListedNothingSelected | app/competitors/page.tsx:23-26 | When no card is listed, the selection is empty. |
| Competitors.CompetitorPicker.constructor | app/competitors/page.tsx:19-20 | The page starts with the six built-in cards and an empty selection. |
| Competitors.CompetitorPicker.RemoveCompetitor | app/competitors/page.tsx:23-26 | The id leaves both lists, through the two filters. The cards stay distinct, and only listed ids stay selected. |
| Competitors.CompetitorPicker.ToggleSelection | app/competitors/page.tsx:28-34 | The selection becomes `Toggle` of the old one, and the invariant is kept. |
| Competitors.CompetitorPicker.HandleAnalyze | app/competitors/page.tsx:36-40 | The page navigates to analysis iff something is selected. |
| Competitors.CompetitorPicker.Restore | app/competitors/page.tsx:110-124 | The built-in cards come back. The selection is, and stays, empty. |
| Sudoku.InputOf | components/loader/NewspaperLoader.tsx:133 | `cell || ''`, for the values the board can hold (empty or 1 to 4): an empty cell shows as empty text, and a digit cell as the one digit character it holds. The text always passes the input test. |
| Sudoku.CellOf | components/loader/NewspaperLoader.tsx:101-104 | An accepted input maps to an empty cell for `""` and to a digit from 1 to 4 otherwise. The input box shows that cell as the same text again. |
| Sudoku.CellInputRoundTrip | components/loader/NewspaperLoader.tsx:102-104 | Every cell the board can hold shows as accepted text that parses back to that cell. |
| Sudoku.Write | components/loader/NewspaperLoader.tsx:103-105 | The copy-and-set writes one cell, leaves every other cell alone, and keeps the 4×4 shape. |
| Sudoku.MatchesSolution | components/loader/NewspaperLoader.tsx:112 | The JSON comparison holds iff the board is 4×4 and equal to the solution cell by cell. |
| Sudoku.SolutionFitsPuzzle | components/loader/NewspaperLoader.tsx:60-73 | The solution keeps every given of the puzzle. |
| Sudoku.SudokuGame.constructor | components/loader/NewspaperLoader.tsx:95-98 | The game starts on the puzzle, playing, not solved. |
| Sudoku.SudokuGame.HandleInput | components/loader/NewspaperLoader.tsx:100-108 | Text matching `^[1-4]?$` writes its cell and resets the status to playing. Other text changes nothing. Givens are never overwritten. |
| Sudoku.SudokuGame.CheckSolution | components/loader/NewspaperLoader.tsx:110-118 | A solved game ignores the check. Otherwise the status becomes correct or incorrect by the comparison, and a correct board reports solved once. |
| Crossword.Key | components/loader/NewspaperLoader.tsx:213 | A cell key is the text `r-c`: both digits read back as the row and the column. |
| Crossword.KeyInjective | components/loader/NewspaperLoader.tsx:213 | Distinct cells of the grid have distinct keys. |
| Crossword.Scan | components/loader/NewspaperLoader.tsx:221-234 | The scan finds the first letter cell along the ray inside the grid, or reports that there is none. |
| Crossword.Upper | components/loader/NewspaperLoader.tsx:211 | Upper-casing works character by character. |
| Crossword.AcceptedInputs | components/loader/NewspaperLoader.tsx:211-212 | After upper-casing, input passes `^[A-Z]?$` iff it is empty or one character whose upper case is an ASCII capital. |
| Crossword.SolutionMatchesGrid | components/loader/NewspaperLoader.tsx:32-46 | Every letter cell of the grid has a solution entry equal to its letter. The prefilled letter agrees with the solution. |
| Crossword.SolutionKeysAreCells | components/loader/NewspaperLoader.tsx:32-46 | Every solution key is the key of a letter cell of the grid. |
| Crossword.AllCorrect | components/loader/NewspaperLoader.tsx:266-267 | Every solution key holds its letter iff every letter cell of the grid shows its grid letter. |
| Crossword.CrosswordGame.constructor | components/loader/NewspaperLoader.tsx:198-201 | The game starts with only the prefilled letter, not solved, and the cursor on (0, 0). |
| Crossword.CrosswordGame.Select | components/loader/NewspaperLoader.tsx:289 | Clicking a letter cell selects it. |
| Crossword.CrosswordGame.Move | components/loader/NewspaperLoader.tsx:221-234 | The cursor jumps to the first letter cell in the direction, or stays if there is none. |
| Crossword.CrosswordGame.HandleInput | components/loader/NewspaperLoader.tsx:210-215 | An accepted letter is stored upper-cased under the cell's key. Anything else changes nothing. |
| Crossword.CrosswordGame.HandleKeyDown | components/loader/NewspaperLoader.tsx:217-262 | Each arrow moves as `move` does. Backspace empties a cell unless it is prefilled. No other key changes anything. |
| Crossword.CrosswordGame.SolvedEffect | components/loader/NewspaperLoader.tsx:264-273 | Solved is reported once, the first time every key is correct, and then stays set. |
| Jumble.InitialItems | components/loader/NewspaperLoader.tsx:152 | Tile i carries id i and letter i of the scrambled word. |
| Jumble.Word | components/loader/NewspaperLoader.tsx:159 | The joined word has one letter per tile, in tile order. |
| Jumble.InitialWord | components/loader/NewspaperLoader.tsx:152-159 | The initial tiles spell the scrambled word. |
| Jumble.ReorderKeepsLetters | components/loader/NewspaperLoader.tsx:172-175 | Any reordering of the tiles spells a word with the same multiset of letters. |
| Jumble.Swap | components/loader/NewspaperLoader.tsx:175 | Exchanging two tiles keeps the tiles and exchanges the two letters of the word. |
| Jumble.DragSpells | components/loader/NewspaperLoader.tsx:172-175 | A series of exchanges keeps the tiles and spells what the same exchanges do to the word. |
| Jumble.SolutionsSpell | components/loader/NewspaperLoader.tsx:75-80 | The listed exchanges turn each scrambled word into its answer. |
| Jumble.JumblesSolvable | components/loader/NewspaperLoader.tsx:75-80 | Each of the four jumbles can be solved by dragging alone. |
| Jumble.JumbleGame.constructor | components/loader/NewspaperLoader.tsx:151-156 | The game starts on the chosen jumble's initial tiles, not solved, with no hint. |
| Jumble.JumbleGame.Reorder | components/loader/NewspaperLoader.tsx:175 | A drag installs the new order. The tiles stay a reordering of the initial ones, and the word keeps the scrambled word's letters. |
| Jumble.JumbleGame.SolvedEffect | components/loader/NewspaperLoader.tsx:158-167 | `isSolved` holds iff the tiles spell the answer. Solving is reported once, the first time they do. |
| Jumble.JumbleGame.ShowHint | components/loader/NewspaperLoader.tsx:189 | The hint is shown. |
| PuzzleLoader.Unsolved | components/loader/NewspaperLoader.tsx:346 | The filter keeps exactly the listed keys that are not solved, without duplicates. |
| PuzzleLoader.Available | components/loader/NewspaperLoader.tsx:345-346 | The available keys are exactly the unsolved kinds of puzzle, each once. |
| PuzzleLoader.Record | components/loader/NewspaperLoader.tsx:358-360 | A solved key is appended once: recording it again changes nothing, and the list stays duplicate-free. |
| PuzzleLoader.NoneLeftIffAll | components/loader/NewspaperLoader.tsx:346-353 | Nothing is left to pick iff every kind of puzzle is solved. |
| PuzzleLoader.NoneLeftIffThree | components/loader/NewspaperLoader.tsx:344-363 | At most three keys are recorded, and nothing is left iff three are. |
| PuzzleLoader.ThreeSolvesFinish | components/loader/NewspaperLoader.tsx:344-363 | Solving the shown puzzle three times from a fresh start records three keys and leaves nothing to pick. |
| PuzzleLoader.Loader.constructor | components/loader/NewspaperLoader.tsx:334-335 | The overlay starts with nothing shown and nothing solved. |
| PuzzleLoader.Loader.SelectNewPuzzle | components/loader/NewspaperLoader.tsx:344-354 | It shows some unsolved puzzle if one is left, and the "all solved" card otherwise. |
| PuzzleLoader.Loader.HandlePuzzleSolved | components/loader/NewspaperLoader.tsx:356-364 | The key is recorded, and the next puzzle shown is never a solved one. The card appears iff all three are solved, and otherwise another puzzle is shown. Solving the shown puzzle adds exactly one key. |
| PuzzleLoader.Loader.StartLoading | components/loader/NewspaperLoader.tsx:366-372 | A new loading phase forgets the solved keys and shows a puzzle. |

## Left out

- Network and browser services. `fetch`, `response.json()`, `localStorage`
  and `Date.now()` are replaced by inputs and a storage map. The request
  URLs, headers and bodies sent are not modelled.
- Timers. The 2-second `setTimeout` between polls and the 600 ms delay before
  `onSolve` are not modelled. A scheduled poll or a reported solve is an
  event the model takes next.
- The server-side branch of `lib/auth.ts`, where `window` is undefined and
  storage is skipped, is not modelled.
- Auth.UserJson: `JSON.stringify(user)` is written as exactly
  `{"id":…,"email":…,"name":…}` without string escaping. Storage holds the
  source's text only when the server's user object has exactly the fields
  id, email and name, in that order, and none of the three values contains a
  character JSON escapes (a quote, a backslash or a control character).
- JWT decoding (`split('.')`, `atob`, `JSON.parse`) is a function parameter.
  Its result is "undecodable" or the `exp` claim.
- Auth.PayloadExpired: the `exp` claim is an integer. A fractional or
  non-numeric `exp` is not modelled.
- `getToken` and `getUser` (lib/auth.ts:143-150) are plain field reads. They
  appear as reads of `token` and `user`.
- The outer `try`/`catch` blocks in `login` and `signup` of
  lib/auth-context.tsx are not modelled: the store never throws, so those
  `catch` branches are unreachable.
- `useAuth`, the context provider markup, `ProtectedRoute` and the
  navigation are not modelled.
- ReportPage: the timestamps put into the pending task status are not
  modelled. The report JSON is an opaque `Report` value. `hoveredPage` and
  all section rendering are left out.
- ReportPage.ViewOf: the `progress` forwarded to the loader is modelled, but
  the loader's drawing is not.
- Crossword.Upper: `toUpperCase` is modelled only for ASCII letters, dotless
  ı and long ſ. Those are the only characters whose upper case is a single
  `A`–`Z` letter. Every other character is mapped to one that fails the
  `^[A-Z]?$` test, which is the outcome the source reaches.
- Crossword focus handling (`inputRefs`, `focus()`) and clue display are not
  modelled.
- Sudoku.SudokuGame.HandleInput and Crossword.CrosswordGame.HandleInput
  require an editable cell. The source renders givens and the prefilled
  letter as text or disabled inputs, so they raise no change events.
- Random choices. `Math.random` in `selectNewPuzzle` is a nondeterministic
  choice among the available keys. The jumble picked once per overlay
  (line 340) is the `pick` argument of the jumble's constructor.
- The overlay rendering and animations (`AnimatePresence`, `motion`),
  `AllPuzzlesSolved` markup and the remounting of puzzle components between
  picks are not modelled.
- The competitor page's `router.push` is modelled as the returned
  `navigate` flag.
- Jumble.JumbleGame.Reorder: requires that the order handed back by the
  reorder group is a permutation of the current tiles. That is what
  framer-motion's `onReorder` passes; the library is not part of this model.
