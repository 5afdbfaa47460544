# vibefolio, modelled in Dafny

vibefolio is a desktop-style portfolio site. Visitors see person cards on a
desk. They can drag a card or expand it, or open a person's portfolio in a
window. Windows can be dragged, resized, maximized, minimized to a dock and
closed, each with a short animation. A search launcher finds people by name
or bio. A drawer in each portfolio window sends preset questions about the
person to an AI ask route. A password-protected admin page edits the list of
people and saves it through an admin route.

This project models the logic behind those features and proves what it
promises:

- `WindowRegistry` is the home page's table of open windows and its z-order counter.
- `WindowFrame` covers the geometry and the animation state machine shared by
  portfolio and project windows. Timers and animation frames are pending
  callbacks, and `Frame.Fire` runs any one of them.
- `Initials` is the `getInitials` helper.
- `SearchLauncher` is the filter and the launcher's open/query state.
- `AIChat` is the system prompt, the preset prompts and the drawer's `loading` guard.
- `DraggableCard` covers card dragging, expansion, colour and stacking level.
- `AdminEdit` holds the pure list and field edits of the admin editor and the login-time merge.
- `AdminPage` is the admin page's state: login, selection, edits and save.
- `AdminRoute` and `AskRoute` are the two API routes, as decision functions
  from request and environment to response.
- `Text`, `Lists`, `Types` and `Wrappers` hold the JavaScript string
  operations on ASCII text, list helpers, the record shapes and `Option`.

React state is a class field and each event handler is one method call. A
fetch becomes two steps: the request a handler sends, then a later call
that receives the response. I/O results are parameters.

## Model

| member | source | states |
|---|---|---|
| Text.TrimEmptyIffBlank | src/components/SearchLauncher.tsx:28 | `s.trim() === ""` holds exactly when every character of `s` is white space |
| Text.SplitJoin | src/components/PortfolioWindow.tsx:21 | joining the pieces of `split(" ")` with the separator gives back the string |
| Initials.FirstCharsOfSplit | src/components/PortfolioWindow.tsx:20-23 | the first characters of the split pieces are exactly the word-start characters of the name; an empty piece contributes nothing |
| Initials.InitialsAreWordStarts | src/components/PortfolioWindow.tsx:19-25 | `getInitials` is the upper-cased first character of each non-empty space-separated word, in order |
| Initials.InitialsCount | src/components/PortfolioWindow.tsx:19-25 | `getInitials` yields exactly one character per word |
| WindowRegistry.RaiseAt | src/app/page.tsx:27-31 | the raise map keeps every window in its place and changes only the z-index of the windows with that id |
| WindowRegistry.WithoutSpec | src/app/page.tsx:42 | the close filter keeps, in order, exactly the windows of other people; with unique ids it removes one window if the person was open, else none |
| WindowRegistry.Desktop.constructor | src/app/page.tsx:18-19 | no windows are open and `maxZ` starts at 100 |
| WindowRegistry.Desktop.PersonClick | src/app/page.tsx:21-37 | an open person's window is raised to `maxZ + 1` and no window is added; otherwise one window is appended at `maxZ + 1`; `maxZ` grows by one; ids stay unique, every z-index stays at most `maxZ`, and the clicked window is the only one at `maxZ` |
| WindowRegistry.Desktop.FocusWindow | src/app/page.tsx:45-56 | the focused window gets the new `maxZ`, strictly above all others; the order, the people and the other windows are unchanged |
| WindowRegistry.Desktop.CloseWindow | src/app/page.tsx:41-43 | removes exactly that person's window and keeps the rest in order; `maxZ` is untouched and the invariant is kept |
| WindowRegistry.ClickTwice | src/app/page.tsx:24-36 | clicking the same person twice leaves one window, two different people give two, and the counter ends at 102 |
| WindowFrame.CancelSpec | src/components/PortfolioWindow.tsx:205 | `clearTimeout` keeps, in order, every pending callback except the referenced one |
| WindowFrame.Frame.constructor | src/components/PortfolioWindow.tsx:74-91 | a new window has the default size (480×520 for a portfolio, 800×560 for a project viewer, src/components/ProjectWindow.tsx:46), or the card's rectangle when it grows from a card; it is idle, not maximized, with no timers |
| WindowFrame.Frame.MouseDownDrag | src/components/PortfolioWindow.tsx:115-126 | the title bar's own handler: a press inside a button returns at once, without starting a drag or calling `onFocus` itself; otherwise it focuses and dragging starts with offset = pointer − position |
| WindowFrame.Frame.PressTitleBar | src/components/PortfolioWindow.tsx:268 | a title-bar press bubbles to the window's `onMouseDown={onFocus}`, so every press focuses the window, a press on a button included (once there, twice when a drag starts); only a press off the buttons starts a drag |
| WindowFrame.Frame.MouseDownResize | src/components/PortfolioWindow.tsx:129-141 | resizing starts with the pointer as origin, and the window is focused |
| WindowFrame.Frame.MouseMove | src/components/PortfolioWindow.tsx:146-162 | while dragging, position = pointer − offset; while resizing, the size grows by the pointer's movement but never below 360×300 (400×300 for a project viewer), and the offset becomes the pointer |
| WindowFrame.Frame.MouseUp | src/components/PortfolioWindow.tsx:164-167 | mouseup clears both dragging and resizing |
| WindowFrame.Frame.ToggleMaximize | src/components/PortfolioWindow.tsx:180-195 | maximizing saves the rectangle and fills the viewport from (0, 0); the next toggle restores the saved rectangle exactly |
| WindowFrame.Frame.CloseClick | src/components/PortfolioWindow.tsx:204-211 | cancels the referenced timer, enters pre-close and schedules the 70 ms step, which becomes the new timer reference |
| WindowFrame.Frame.MinimizeClick | src/components/PortfolioWindow.tsx:213-222 | cancels the referenced timer, enters minimizing and schedules the 420 ms step |
| WindowFrame.Frame.SetMinimized | src/components/PortfolioWindow.tsx:57-68 | only a true → false flip of `minimized` starts the restore: one animation frame is queued, and a project viewer enters init-restore at once (src/components/ProjectWindow.tsx:59-68) |
| WindowFrame.Frame.Fire | src/components/PortfolioWindow.tsx:207-221 | each callback does its step and nothing else: pre-close → closing plus the 260 ms close timer; the close timer calls `onClose` once; the minimize timer calls `onMinimize` and returns to idle; the restore frames lead to init-restore, then restoring plus the 500 ms timer, and that timer returns to idle |
| WindowFrame.CloseSequence | src/components/PortfolioWindow.tsx:204-211 | a close runs idle → pre-close → closing and then calls `onClose` exactly once |
| WindowFrame.MinimizeSequence | src/components/PortfolioWindow.tsx:213-222 | a minimize runs idle → minimizing → idle and calls `onMinimize` once; once the prop is set the window is hidden (lines 255-256) |
| WindowFrame.RestoreSequence | src/components/ProjectWindow.tsx:59-68 | un-minimizing passes through init-restore and restoring back to idle; the window stays visible throughout (lines 196-197) |
| WindowFrame.CloseDuringMinimize | src/components/ProjectWindow.tsx:92-107 | a close during a minimize cancels the minimize timer, leaving only the close step pending |
| WindowFrame.DragBack | src/components/ProjectWindow.tsx:123-171 | a drag whose pointer returns to the press point leaves the window where it was |
| WindowFrame.MaximizeRoundTrip | src/components/ProjectWindow.tsx:72-85 | maximize, drag, then restore returns exactly the rectangle from before maximizing |
| SearchLauncher.FilterSpec | src/components/SearchLauncher.tsx:26-31 | the results are an order-preserving subsequence of `people`, and a person is in them exactly when they match: blank query, or the lower-cased query occurs in the lower-cased name or bio |
| SearchLauncher.FilterBlankQuery | src/components/SearchLauncher.tsx:26-28 | a blank query returns every person, in order |
| SearchLauncher.SingleResult | src/components/SearchLauncher.tsx:50 | a single result is the one and only matching person |
| SearchLauncher.Launcher.constructor | src/components/SearchLauncher.tsx:22-23 | the launcher starts closed with an empty query |
| SearchLauncher.Launcher.OpenSearch | src/components/SearchLauncher.tsx:33-37 | opens with an empty query |
| SearchLauncher.Launcher.Type | src/components/SearchLauncher.tsx:96 | the query becomes the typed text |
| SearchLauncher.Launcher.CloseClick | src/components/SearchLauncher.tsx:107 | closes and clears the query |
| SearchLauncher.Launcher.OpenPerson | src/components/SearchLauncher.tsx:39-43 | hands over that person, closes and clears the query |
| SearchLauncher.Launcher.ClickResult | src/components/SearchLauncher.tsx:125 | clicking result `i` opens exactly that result |
| SearchLauncher.Launcher.KeyDown | src/components/SearchLauncher.tsx:47-51 | keys are ignored while closed; Escape closes and clears; Enter opens the result only when there is exactly one; other keys change nothing |
| SearchLauncher.EnterOpensOnlyMatch | src/components/SearchLauncher.tsx:26-50 | after typing, Enter opens someone exactly when one person matches, and then it is that person |
| AIChat.ProjectsCurrentBeforePast | src/components/AIChat.tsx:12-15 | all current projects, tagged "(current)", come before all past ones, tagged "(past)", joined by "; " |
| AIChat.ContextLayout | src/components/AIChat.tsx:11-23 | the trimmed prompt is the template up to "Contact:" unchanged, then the socials line with trailing white space cut; it contains the person's name |
| AIChat.FirstNameIsLeadingWord | src/components/AIChat.tsx:84 | the first name is the prefix of the name before its first space, or the whole name if it has none |
| AIChat.PromptNamesPerson | src/components/AIChat.tsx:50-75 | every preset prompt contains the person's name |
| AIChat.Drawer.constructor | src/components/AIChat.tsx:78-81 | the drawer starts closed, with no active button, not loading and not playing |
| AIChat.Drawer.Toggle | src/components/AIChat.tsx:140 | the toggle button flips `open` |
| AIChat.Drawer.Preset | src/components/AIChat.tsx:86-105 | while loading, a preset click changes nothing and sends nothing; otherwise it stops playback, sets the active id and `loading`, and sends the preset prompt with the system context |
| AIChat.Drawer.Settle | src/components/AIChat.tsx:106-133 | `loading` ends false whether the request fails or succeeds; audio is queued only for an answer that carries it |
| AIChat.Drawer.AudioStarted | src/components/AIChat.tsx:118 | the audio's `onplay` sets `playing` |
| AIChat.Drawer.AudioStopped | src/components/AIChat.tsx:119-127 | ending, an audio error or a refused `play()` clears `playing` |
| AIChat.DoubleClick | src/components/AIChat.tsx:87 | a second click during a request sends nothing and keeps the first button active; after the reply a click is accepted again |
| AIChat.ReplyOf | src/components/AIChat.tsx:106-107 | a non-empty `error` in the reply is a failure; every other reply of the ask route is an answer without audio |
| AIChat.PresetRequestAccepted | src/app/api/ask/route.ts:13-30 | with the key set, every preset request passes the ask route's validation and is forwarded upstream unchanged |
| AIChat.AskThroughRoute | src/components/AIChat.tsx:86-133 | a preset click answered by the ask route reaches the upstream model exactly when the key is set, and leaves the drawer not loading, with nothing to play |
| DraggableCard.ColorCycle | src/components/DraggableCard.tsx:84-91 | card colours repeat every five positions and neighbours never share one |
| DraggableCard.StackingOrder | src/components/DraggableCard.tsx:106 | a dragged card stacks above an expanded one, which stacks above any card at rest below 9998 |
| DraggableCard.Card.constructor | src/components/DraggableCard.tsx:34-36 | a card starts at its initial position, not dragged and not expanded |
| DraggableCard.Card.MouseDown | src/components/DraggableCard.tsx:43-53 | an expanded card or a press on a button starts no drag; otherwise dragging starts with offset = pointer − position |
| DraggableCard.Card.MouseMove | src/components/DraggableCard.tsx:58-63 | while dragging, position = pointer − offset |
| DraggableCard.Card.MouseUp | src/components/DraggableCard.tsx:65-68 | mouseup ends dragging and reports whether a drag ended |
| DraggableCard.Card.Click | src/components/DraggableCard.tsx:78-82 | a click toggles expansion only when not dragging |
| DraggableCard.DragCard | src/components/DraggableCard.tsx:43-68 | a dragged card stacks at 9999 and returns to its own z-index afterwards; it lands at pointer − grab offset |
| DraggableCard.ExpandedStaysPut | src/components/DraggableCard.tsx:44 | an expanded card cannot be dragged and stacks at 9998 |
| AdminEdit.BlankProject | src/app/admin/page.tsx:14-23 | a blank project has empty name, start date, description and links; it has no end date exactly when it is current, and "" otherwise |
| AdminEdit.BlankPerson | src/app/admin/page.tsx:25-35 | a blank person has empty fields and no socials or projects |
| AdminEdit.SetPersonField | src/app/admin/page.tsx:199-228 | editing one field changes only that field; an empty username or tagline is cleared to absent |
| AdminEdit.SetProjectField | src/app/admin/page.tsx:129-146 | editing one project field changes only that field |
| AdminEdit.SetLinkField | src/app/admin/page.tsx:156-170 | editing link `i`'s label or URL changes only that field of that link |
| AdminEdit.RemoveLink | src/app/admin/page.tsx:174-175 | removing link `i` deletes exactly that link and keeps the others in order |
| AdminEdit.AddLink | src/app/admin/page.tsx:181 | appends one empty link |
| AdminEdit.SetSocialField | src/app/admin/page.tsx:239-264 | editing social `i`'s label, URL or icon changes only that field of that social |
| AdminEdit.RemoveSocial | src/app/admin/page.tsx:267 | removing social `i` deletes exactly that social and keeps the others in order |
| AdminEdit.AddSocial | src/app/admin/page.tsx:272 | appends one empty social |
| AdminEdit.SetProjectAt | src/app/admin/page.tsx:282-305 | replacing current or past project `i` changes only that project of that list |
| AdminEdit.RemoveProjectAt | src/app/admin/page.tsx:287-307 | removing project `i` deletes exactly that project of that list and keeps the rest in order |
| AdminEdit.AddProject | src/app/admin/page.tsx:292-312 | appends one blank project of the right kind to that list only |
| AdminEdit.FindByIdSpec | src/app/admin/page.tsx:344 | `find` returns the first seed with the id, or nothing when no seed has it |
| AdminEdit.MergeSpec | src/app/admin/page.tsx:343-350 | the merge keeps every loaded person, in order, and changes only username and tagline; present values are kept; a missing one is filled from the first seed with the same id (`FindById`); with no such seed it stays missing and the person is unchanged; a non-array yields [] |
| AdminPage.LoginError | src/app/admin/page.tsx:333-340 | 401 is "Wrong password.", any other non-2xx an error, and only a 2xx goes on to load |
| AdminPage.SaveMessageColour | src/app/admin/page.tsx:367-370 | the message starts with "Error", and so is shown red (line 483), for every failed save except a non-`Error` throw; "Saved successfully!" exactly on success |
| AdminPage.SaveMessageCarriesError | src/app/admin/page.tsx:367 | a rejected save shows the route's error text |
| AdminPage.LoadedOf | src/app/admin/page.tsx:343 | only a people array counts as an array; an error object does not |
| AdminPage.Page.constructor | src/app/admin/page.tsx:321-328 | the page starts logged out with nothing loaded |
| AdminPage.Page.TypePassword | src/app/admin/page.tsx:403 | the password input sets `pw` |
| AdminPage.Page.Login | src/app/admin/page.tsx:330-355 | clears the error; a 401 or other non-2xx sets its message and loads nothing; a 2xx loads the merged people, keeps the password and selects index 0 |
| AdminPage.Page.Select | src/app/admin/page.tsx:447 | selects an existing person |
| AdminPage.Page.AddPerson | src/app/admin/page.tsx:458-461 | appends one blank person and selects the new last index |
| AdminPage.Page.RemoveSelected | src/app/admin/page.tsx:506-510 | deletes exactly the selected index, keeps the rest in order, and selects `max(0, selectedIdx − 1)`, which stays a valid index |
| AdminPage.Page.UpdatePerson | src/app/admin/page.tsx:376-381 | keeps the length, replaces only index `idx`, and clears the save message |
| AdminPage.Page.BeginSave | src/app/admin/page.tsx:357-365 | marks saving, clears the message and posts the remembered password with the whole list |
| AdminPage.Page.FinishSave | src/app/admin/page.tsx:366-373 | sets the message for the reply and clears `saving` |
| AdminPage.LoginThenSave | src/app/admin/page.tsx:330-374 | against the admin route, the configured password loads the stored people merged with the seeds, and a save writes exactly that list; any other password gives "Wrong password." and touches nothing |
| AdminPage.AddThenRemove | src/app/admin/page.tsx:458-510 | adding a person and removing it again restores the list, with the last person selected |
| AdminRoute.AdminPassword | src/app/api/admin/route.ts:6 | the password is the environment's when that is set and non-empty, else "slava123"; it is never empty |
| AdminRoute.SavePeople | src/lib/store.ts:46-67 | without a blob token the save fails with the missing-token error; with one it succeeds exactly when the upload does |
| AdminRoute.GetSpec | src/app/api/admin/route.ts:8-14 | GET reads the store and returns its contents exactly when the password matches; otherwise 401 with no store access |
| AdminRoute.PostRejects | src/app/api/admin/route.ts:20-25 | a wrong password is 401 whatever the body holds; a right one with a non-array is 400; neither touches the store |
| AdminRoute.PostWritesIffValid | src/app/api/admin/route.ts:17-32 | a POST saves exactly when it is authorized and `people` is an array, and then saves exactly that array; 200 `{ok: true}` exactly when that save succeeds; a failed save is 500 with its message |
| AdminRoute.SamePasswordBothWays | src/app/api/admin/route.ts:10-20 | a password that opens GET lets a POST with an array write it |
| AskRoute.CheckField | src/app/api/ask/route.ts:13 | a field counts as blank exactly when it is missing or white space only, and its check throws exactly when it is not a string |
| AskRoute.MissingKeyFails | src/app/api/ask/route.ts:8-9 | an unset or empty key is 500 "GEMINI_API_KEY is not set" with no upstream call |
| AskRoute.BlankInputRejected | src/app/api/ask/route.ts:13-18 | a blank question, or a blank context after a present question, is 400 with no upstream call |
| AskRoute.UpstreamCalledIffValid | src/app/api/ask/route.ts:8-30 | upstream is called exactly when the key is set and both fields are non-blank strings, and receives them unchanged |
| AskRoute.AnswerSpec | src/app/api/ask/route.ts:32-38 | success is exactly a 2xx reply with non-empty text, and returns that text; a non-2xx keeps its status; a 2xx without text is 500; the message falls back to "Empty response from Gemini" |
| AskRoute.ThrownAnswer | src/app/api/ask/route.ts:39-43 | a thrown fetch or unreadable reply is 500 with the thrown message, or "Unknown error" |
| AskRoute.StatusMatchesPayload | src/app/api/ask/route.ts:33-38 | the status is 200 exactly when the route returns text; that text is non-empty and came from an upstream call |

## Left out

- WindowFrame.Frame.Fire: any pending callback may fire next. The 70/260/420/500 ms delays and frame timing do not order them, so the model allows more interleavings than the browser does.
- Window positions from `Math.random`, the centring arithmetic, and the card-to-window grow animation (src/components/PortfolioWindow.tsx:74-84, 94-109): initial positions are parameters. The grow step is not modelled because it is a floating-point layout effect.
- `computeDockTranslate`, `getAnimStyle`, CSS transitions and cursors: rendering only, with floating-point viewport halving.
- The unmount cleanup that clears the animation timer: component lifetime is not modelled.
- `getProjectDomain`, `getProjectFaviconUrl` and `displayUrl`: they depend on the browser's URL parser.
- Audio in the drawer (`Audio`, `atob`, `Blob`, object URLs): browser APIs. Only whether audio is queued and whether it plays is kept.
- `toLowerCase`, `toUpperCase` and `trim` work on ASCII only. Unicode case mapping and white space are not modelled.
- Reading the store and the blob upload (`getPeople`, the `list`/`del`/`put` calls in src/lib/store.ts) and src/app/api/people/route.ts: their outcome is a parameter. The stored list and the upload result are inputs.
- src/lib/data.ts: the seed people are a parameter of the merge.
- `uid()`: fresh ids are parameters.
- src/lib/types.ts declares no `username` or `introTagline`, but the admin page reads and writes both. `Person` carries them as optional fields.
- The AI drawer's guard is per drawer instance: each window's `loading` flag. The code has no process-wide lock.
- Body fields of types the model cannot express are out of scope. Examples: a non-string `password` or `error`, and array elements that are not person records. A non-string password is treated like a missing one, since it can never equal the configured string.
- AdminPage.Page.Login: a failure while reading the login response's JSON leaves the page as it was apart from the cleared error. In the source this is an unhandled rejection.
- AdminPage.Page.UpdatePerson and AdminPage.Page.Select require an existing index. The page only calls them with the selected or a listed index; writing past the end of a JavaScript array is not modelled.
- Focus management (`inputRef.focus()` after opening the launcher) and rendering of the lists.
