# Portfolio scene router, mission carousel, accordion and contact form

A Dafny model of the four small state machines in a themed single-page
portfolio (a React/TypeScript application). Everything else in it is
markup, animation, audio and static content.

- **Scene router** (`app.dfy`, module `App`). The app shows one of eight
  scenes: `sync`, `hub` and six content scenes. It starts on `sync` with
  `isSyncing` raised, a 3 s start-up timer lowers the flag, and the sync
  scene's enter button (rendered only once the flag is down) leads to the hub.
  `navigateToScene` remembers the target in `lastSelectedMission` when it is
  a content scene, then shows it. Each content scene's back button returns to
  the hub. The router is a class `SceneRouter` with the three state fields.
  Its methods are tied to a value-level `Step` function. `Run` applies a
  sequence of events, and the lemmas about it speak of every reachable state.
- **Mission carousel** (`mission_hub.dfy`, module `MissionHub`). An index in
  `[0, 6)` into the six mission ids. It starts at the `findIndex` position of
  the initial mission (default `profile`, fallback 0). The next and previous
  buttons rotate it modulo 6. `getCardPosition` puts every card in the centre,
  left, right or hidden slot. Only the centre card navigates when clicked.
  The hub is unmounted whenever another scene is shown, so each return to the
  hub builds a fresh `Carousel` from the router's remembered mission.
- **Codex accordion** (`codex_entries.dfy`, module `CodexEntries`). An
  optional open index over the three entries. `toggleEntry` opens an entry,
  or closes it when it is already open.
- **Contact form** (`contact_bureau.dfy`, module `ContactBureau`). Four fields,
  an in-flight flag and a status banner. `handleSubmit` is split at its
  `await` into `Submit` and `Settle`, because the fields stay editable while
  the send is in flight:
  - `Submit` raises the flag and returns the email parameters.
  - `Settle` runs the `try`/`catch`/`finally` blocks for the service's
    outcome, which is a parameter.
  - `ResetTimerFires` is the 3 s status-reset timer. `pendingResets` counts
    the timers scheduled and not yet fired.
- `scenarios.dfy` (module `Scenarios`) connects router and carousel as App
  wires them. It also walks through the skills round trip and a failed then
  retried contact submission.

Behaviour of the code that the model keeps:
- The reset timers are never cancelled. Suppose a send fails and a second
  send succeeds within 3 s. The first timer then clears the success banner
  early. `ResetTimerFires` allows this, because it fires any pending timer.
- A success clears the whole form, including anything typed while the send
  was in flight. A failure keeps what is in the form at that moment.

## Model

| member | source | states |
|---|---|---|
| `App.Initial` | src/App.tsx:15-17 | start-up state is scene `sync`, syncing, with `profile` remembered; it satisfies the router invariant |
| `App.Navigate` | src/App.tsx:60-66 | the new scene is the target; a content target becomes the remembered mission; `sync`/`hub` leave it unchanged; `isSyncing` is never touched |
| `App.Step` | src/App.tsx:20-95 | timer lowers only `isSyncing`; enter and back lead to the hub exactly when their button is rendered, otherwise nothing changes; a navigation event is `Navigate` |
| `App.NavigateKeepsValid` | src/App.tsx:62-64 | navigation keeps the remembered mission a content scene |
| `App.NavigateIdempotent` | src/App.tsx:60-66 | navigating to the same scene twice equals navigating once |
| `App.RunKeepsValid` | src/App.tsx:60-66 | the invariant survives any sequence of events |
| `App.ReachedIsValid` | src/App.tsx:15-66 | in every state reachable from start-up the remembered mission is neither `sync` nor `hub` |
| `App.SyncingClearedOnlyByTimer` | src/App.tsx:16-22 | after any events, `isSyncing` is raised iff it was raised before and the start-up timer did not fire (it only goes true to false) |
| `App.ReachedSyncing` | src/App.tsx:16-22 | from start-up, syncing is over iff the timer has fired |
| `App.ButtonsLeadToHub` | src/App.tsx:70-95 | enter (when available) and every back button lead to the hub; enter before syncing ends is a no-op |
| `App.SceneRouter.constructor` | src/App.tsx:15-17 | the three fields start as `sync`, true, `profile` |
| `App.SceneRouter.NavigateToScene` | src/App.tsx:60-66 | new state is `Navigate` of the old; invariant kept |
| `App.SceneRouter.SyncTimerFires` | src/App.tsx:21-22 | lowers `isSyncing`, nothing else changes |
| `App.SceneRouter.PressEnter` | src/components/AnimusSynchronization.tsx:116-121 | accepted iff on `sync` with syncing over; then the scene is the hub |
| `App.SceneRouter.PressBack` | src/App.tsx:79-95 | accepted iff on a content scene; then the scene is the hub |
| `App.SceneRouter.HubInitialMission` | src/App.tsx:77 | the hub is mounted with the remembered mission itself, which is a content scene |
| `MissionHub.MissionsShape` | src/components/MissionHub.tsx:14-63 | six missions, every id a content scene |
| `MissionHub.FindIndex` | src/components/MissionHub.tsx:66 | result is -1 iff absent, else the first position holding the value |
| `MissionHub.InitialIndex` | src/components/MissionHub.tsx:13-67 | start index is in range, is the position of the initial mission (default `profile`) when listed, and 0 otherwise |
| `MissionHub.InitialIndexOfContent` | src/components/MissionHub.tsx:66-67 | every content scene is found: the carousel opens centred on it |
| `MissionHub.NextIndex` | src/components/MissionHub.tsx:93-96 | next stays in `[0, 6)`, wrapping from 5 to 0 |
| `MissionHub.PrevIndex` | src/components/MissionHub.tsx:98-101 | prev stays in `[0, 6)`, wrapping from 0 to 5 |
| `MissionHub.NextPrevInverse` | src/components/MissionHub.tsx:93-101 | prev undoes next and next undoes prev |
| `MissionHub.AdvanceIsRotation` | src/components/MissionHub.tsx:95 | k presses of next give `(i + k) % 6` |
| `MissionHub.AdvanceSixIsIdentity` | src/components/MissionHub.tsx:95 | six presses of next return to the start (6-cycle) |
| `MissionHub.CardPosition` | src/components/MissionHub.tsx:103-109 | centre iff the index is current; right iff it is the next index; left iff it is the previous index |
| `MissionHub.OneCardPerSlot` | src/components/MissionHub.tsx:103-108 | exactly one card each is centre, right and left, and which |
| `MissionHub.RenderedCards` | src/components/MissionHub.tsx:176-180 | the rendered cards are exactly the centre and its two neighbours, three distinct cards |
| `MissionHub.ThreeHidden` | src/components/MissionHub.tsx:103-108 | the remaining three cards are hidden |
| `MissionHub.ClickTarget` | src/components/MissionHub.tsx:227 | a click navigates iff the card is the centre one, to its content scene |
| `MissionHub.Carousel.constructor` | src/components/MissionHub.tsx:66-67 | the index starts at `InitialIndex` |
| `MissionHub.Carousel.NextCard` | src/components/MissionHub.tsx:93-96 | index becomes `NextIndex` of the old; stays valid |
| `MissionHub.Carousel.PrevCard` | src/components/MissionHub.tsx:98-101 | index becomes `PrevIndex` of the old; stays valid |
| `MissionHub.Carousel.Position` | src/components/MissionHub.tsx:103-109 | the slot is `CardPosition` of the current index: centre iff current, right iff next, left iff previous, otherwise hidden |
| `MissionHub.Carousel.Click` | src/components/MissionHub.tsx:227-237 | returns a target iff the card is centre, that card's id; changes nothing |
| `CodexEntries.Toggled` | src/components/CodexEntries.tsx:48-50 | closes iff the entry was the open one, otherwise opens exactly that entry |
| `CodexEntries.ToggleTwice` | src/components/CodexEntries.tsx:48-50 | toggling twice restores "it open" or "nothing open" |
| `CodexEntries.ToggleTwiceFromOther` | src/components/CodexEntries.tsx:48-50 | from another entry open, toggling twice leaves none open |
| `CodexEntries.DetailsShown` | src/components/CodexEntries.tsx:229 | details show iff the index is the open one |
| `CodexEntries.AtMostOneShown` | src/components/CodexEntries.tsx:229 | two entries showing details are the same entry |
| `CodexEntries.Accordion.constructor` | src/components/CodexEntries.tsx:12 | initially nothing is open |
| `CodexEntries.Accordion.ToggleEntry` | src/components/CodexEntries.tsx:48-50 | new value is `Toggled` of the old; no other entry shows details |
| `CodexEntries.Accordion.ShownEntries` | src/components/CodexEntries.tsx:228-241 | at most one entry shows details: the open one |
| `ContactBureau.EmptyForm` | src/components/ContactBureau.tsx:13-18 | every field is empty |
| `ContactBureau.WithField` | src/components/ContactBureau.tsx:87-92 | the named field takes the value; the other three are unchanged |
| `ContactBureau.Params` | src/components/ContactBureau.tsx:58-65 | fixed recipient name and the given time |
| `ContactBureau.ParamsRoundTrip` | src/components/ContactBureau.tsx:58-65 | the four fields map one-to-one onto the parameters (email to `reply_to`) |
| `ContactBureau.InitialForm` | src/components/ContactBureau.tsx:13-20 | empty fields, not submitting, status idle, no timers |
| `ContactBureau.Settled` | src/components/ContactBureau.tsx:69-84 | success: status success, form cleared; failure: status error, form kept; both lower the flag and schedule one reset |
| `ContactBureau.ResetFired` | src/components/ContactBureau.tsx:72-74 | a reset returns the status to idle and changes nothing else |
| `ContactBureau.FailureKeepsInputForRetry` | src/components/ContactBureau.tsx:75-84 | after a failure the input is kept and the button is enabled while the error shows |
| `ContactBureau.ContactForm.constructor` | src/components/ContactBureau.tsx:13-20 | initial state is `InitialForm` |
| `ContactBureau.ContactForm.HandleChange` | src/components/ContactBureau.tsx:87-92 | the form becomes `WithField` of the old; nothing else changes |
| `ContactBureau.ContactForm.SubmitEnabled` | src/components/ContactBureau.tsx:340 | the button is enabled iff no submission is in flight; `Submit` acts exactly when it is enabled and `Settle` leaves it enabled |
| `ContactBureau.ContactForm.Submit` | src/components/ContactBureau.tsx:32-34 | a press sends iff the button was enabled; a press while disabled does nothing; otherwise the flag is raised and the current form is sent |
| `ContactBureau.ContactForm.Settle` | src/components/ContactBureau.tsx:69-84 | new state is `Settled` of the old; the submit button is enabled again |
| `ContactBureau.ContactForm.ResetTimerFires` | src/components/ContactBureau.tsx:79-81 | status back to idle; form and flag unchanged |
| `Scenarios.ReturnToHubCentresOnMission` | src/App.tsx:77 | after visiting content scene c and pressing back, the re-mounted hub centres on c |
| `Scenarios.ClickNavigatesToCentre` | src/components/MissionHub.tsx:227 | a centre-card click shows that mission and remembers it |

## Left out

- Audio: the click, select, back and loading sounds, and the background-music start with its retry on the first click or key press. Audio calls never affect state here, and their volume is floating point.
- The sync scene's scripted progress steps and their timers. The model only needs the `isSyncing` flag the scene reads.
- The profile, skills, projects and gallery scenes. They are static content with modal show/hide flags.
- The email service call and the formatting of the submission time. The time is a string parameter of `Submit`, and the service's result is the `SendOutcome` parameter of `Settle`.
- Cancelling the start-up timer on unmount. The model has no unmount event.
- The mission cards' titles, subtitles, colours and icons. Only their ids, in carousel order, are modelled.
- Animation, styling and responsive sizes.
- Unmounting of the codex and contact scenes. App renders each scene only while it is current, so `openEntry` and the whole contact form state are discarded on every back press and start fresh on return. A send that settles after the user has left changes nothing. Here `Accordion` and `ContactForm` objects live on, and a scene's re-entry corresponds to constructing a new one.
- HTML validation of the form fields: every field is `required` and the email input has `type="email"`. The browser refuses an empty field or a malformed address before `onSubmit` runs, so `Submit` accepts any field values.
- Narrowing of navigation targets: the router accepts all eight scenes, as `navigateToScene` does. The TypeScript type of the hub's `onNavigate` narrows it to content scenes, but the router does not rely on that.
