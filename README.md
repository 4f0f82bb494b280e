# The Postbox, modelled in Dafny

The Postbox is a "slow mail" web app. Users write letters, attach media, press wax stamps onto the paper and send them to contacts. A letter then travels at a simulated 100 km per hour. The dashboard files each letter under one of three tabs: En Route, Postbox and Dispatch. It does this by comparing the letter's stored status and delivery time with the current clock. The stored status is never rewritten.

The model covers the logic under the views:

- `constants.dfy` (module `Constants`): the delivery estimator and the seed tables.
- `dashboard.dfy` (module `Dashboard`): the tab filter, the contact shown on each card and the click action.
- `app.dfy` (module `App`): the letter and contact store as class `Postbox`. This covers the startup seed, sending a letter, and the device-contact sync with its deduplication by name.
- `letter_editor.dfy` (module `LetterEditor`): the composing state as class `Editor`. This covers attachments, stamps, the stamp toggle, the polish rule, the send guard and the shown travel time.
- `letter_tracking_view.dfy` (module `LetterTrackingView`): the tracking screen's progress, minutes left, courier marker and recipient fallback.
- `types.dfy` (module `Types`): the record types and the find-by-id lookup. `strings.dfy` (module `Strings`): prefix tests and decimal rendering.

Numbers are modelled as follows:

- Timestamps and distances are integers (milliseconds and whole kilometres).
- Stamp positions, rotations, travel hours and progress are reals.
- Clock readings, `Math.random()` draws, picked files, device contacts and the rewriting service's answer are parameters.

Some behaviours of the code are easy to miss:

- A letter's `distance` is optional. `handleSend` stores whatever distance the editor passed, and that is undefined when the recipient id matches no contact. This can happen after a sync replaced that contact (`App.SyncCanDropAnId`).
- The seed letter is written only when the storage key is absent. A stored empty list is loaded as it is, and no seed is written.
- `estimatedDeliveryAt >= sentAt + delay` holds only when the clock does not go back between the two readings `handleSend` takes.
- Letters the user sends are stored as Arriving, never as Sent. The Dispatch tab never lists them, and their cards look up the user ("current-user") as the sender (`App.SentLettersShowTheUser`).
- The tracking view looks recipients up among the four seed contacts only. A synced contact is always shown as "Friend" (`LetterTrackingView.DeviceRecipientIsUnknown`).

## Model

| member | source | states |
|---|---|---|
| `Types.FindContact` | components/Dashboard.tsx:22 | returns None exactly when no contact has the id; otherwise it returns the contact at the first index with that id |
| `Constants.DeliveryTimeMs` | constants.ts:20-25 | the delay times 100 equals the distance times 3,600,000: distance/100 hours in milliseconds |
| `Constants.HundredKmIsOneHour` | constants.ts:21-24 | 100 km take exactly one hour, 3,600,000 ms |
| `Constants.DeliveryTimeSign` | constants.ts:24 | zero distance gives zero delay; a non-negative distance gives a non-negative delay; a positive one gives a positive delay |
| `Constants.DeliveryTimeMonotone` | constants.ts:24 | a longer distance never gives a shorter delay |
| `Constants.DeliveryTimeAdditive` | constants.ts:24 | the delay of a+b km is the delay of a km plus that of b km |
| `Constants.DeliveryTimeOfLondon` | constants.ts:24 | 450 km take 16,200,000 ms, four and a half hours |
| `Constants.Fonts` | constants.ts:2-7 | four font classes; the default is "serif" |
| `Constants.PaperTypes` | constants.ts:9-14 | four papers; the default is Parchment |
| `Constants.StampDesigns` | constants.ts:16-18 | ten stamp designs |
| `Constants.MockContacts` | constants.ts:27-32 | the four seed contacts |
| `Constants.MockContactsWellFormed` | constants.ts:27-32 | seed contacts have pairwise distinct ids and names and strictly positive distances |
| `Dashboard.TabLetters` | components/Dashboard.tsx:24-33 | a tab never lists more letters than are stored |
| `Dashboard.TabMembers` | components/Dashboard.tsx:24-33 | a tab lists exactly the stored letters that pass its filter |
| `Dashboard.EnRouteTab` | components/Dashboard.tsx:25-26 | En Route lists exactly the Arriving letters whose delivery time is after now |
| `Dashboard.PostboxTab` | components/Dashboard.tsx:28-31 | Postbox lists every Received letter whatever the time, plus the Arriving letters due at or before now |
| `Dashboard.DispatchTab` | components/Dashboard.tsx:32 | Dispatch lists exactly the Sent letters |
| `Dashboard.DueNowIsDelivered` | components/Dashboard.tsx:26-30 | a letter due exactly now is in Postbox and not En Route |
| `Dashboard.ExactlyOneTab` | components/Dashboard.tsx:24-33 | for every now, each letter passes exactly one tab's filter |
| `Dashboard.TabsPartitionLetters` | components/Dashboard.tsx:24-33 | the three tabs together hold the stored letters as a multiset, and their lengths sum to the number stored |
| `Dashboard.TabKeepsOrder` | components/Dashboard.tsx:24 | each tab is a subsequence of the stored letters, so stored order is kept |
| `Dashboard.DeliveryIsFinal` | components/Dashboard.tsx:26-32 | as now grows, a letter can leave En Route for Postbox but never move back; Dispatch does not depend on time |
| `Dashboard.TabsMonotoneInTime` | components/Dashboard.tsx:24-33 | later, the Postbox list contains the earlier one as a subsequence and En Route is contained in the earlier one; Dispatch is unchanged |
| `Dashboard.TabLettersAppend` | components/Dashboard.tsx:24 | filtering a list with one more letter at the end gives the old tab plus, at most, that letter at the end |
| `Dashboard.PersonShown` | components/Dashboard.tsx:73-75 | the card shows the first contact whose id is the recipient's on Dispatch and the sender's elsewhere, or nobody when no contact has that id |
| `Dashboard.ClickCard` | components/Dashboard.tsx:76-81 | clicking tracks the letter exactly on En Route and opens it otherwise |
| `App.EffectiveDistance` | App.tsx:76 | a missing or zero distance is timed as 100 km; any other distance is used as it is; the result is never 0 |
| `App.NewLetter` | App.tsx:75-90 | the new letter is Arriving, from "current-user", and carries the draft's recipient, content, font, paper class, attachments, stamps and raw distance; sentAt is the second clock reading; under a clock that does not go back, delivery is at least sentAt plus the estimate |
| `App.NewLetterDueTime` | App.tsx:76-87 | delivery time is the third clock reading plus the estimate of the effective distance |
| `App.NewLetterJourney` | App.tsx:76-88 | for a non-negative distance, a sent letter is due strictly after it was sent; it is En Route until then and in Postbox from then on; it is never under Dispatch |
| `App.LondonLetterScenario` | App.tsx:76-87 | 450 km sent at T: En Route at T+1h, in Postbox at T+5h |
| `App.SentLettersShowTheUser` | App.tsx:79-88 | a letter the user sent is never on Dispatch, and its card shows nobody unless a contact has id "current-user" |
| `App.SendExtendsEveryTab` | App.tsx:92 | after a send, each tab is the old tab followed, at most, by the new letter |
| `App.SeedLetterWith` | App.tsx:25-40 | the seed letter is Received, from contact "1" to the user, sent two hours before the first clock reading and due one hour before the second, with one stamp and distance 450 |
| `App.SeedLetterAsWritten` | App.tsx:34 | the seed letter as written carries the misencoded dove as its stamp design |
| `App.SeedStampAsWrittenIsNoDesign` | App.tsx:34 | that stamp design is none of the ten offered designs |
| `App.SeedLetter` | App.tsx:25-40 | the corrected seed letter carries the first offered design, the dove |
| `App.SeedLetterDelivered` | App.tsx:35-37 | with ordered clock readings, the seed letter has sentAt < estimatedDeliveryAt < now and is in Postbox |
| `App.DeviceContactName` | App.tsx:59 | the first device name if it is non-empty, otherwise "Unknown Contact"; never empty |
| `App.SimulatedDistance` | App.tsx:62 | for a random draw in [0, 1), the distance is an integer in [100, 8100) |
| `App.ImportDeviceContact` | App.tsx:57-63 | an imported contact has the name rule's name, "Virtual Location", the simulated distance and the id "device-", the clock reading, "-" and its index |
| `App.ImportDeviceContacts` | App.tsx:57-63 | one contact per device contact, in order, each built from its own clock reading and random draw; each has a non-empty name, an id starting "device-" and, for an in-range draw, a distance in [100, 8100); the ids of one import are pairwise distinct whatever the clock reads |
| `App.Dedup` | App.tsx:66 | the result is never longer than the input |
| `App.DedupNames` | App.tsx:66 | a name occurs after deduplication exactly when it occurs before |
| `App.DedupNamesDistinct` | App.tsx:66 | after deduplication no two contacts share a name |
| `App.DedupKeepsLast` | App.tsx:66 | each kept contact is the last one in the input with its name |
| `App.DedupFirstOccurrenceOrder` | App.tsx:66 | kept contacts appear in the order in which their names first occur in the input |
| `App.DedupOfDistinct` | App.tsx:66 | a list whose names are already distinct is returned unchanged |
| `App.DedupIdempotent` | App.tsx:66 | deduplicating twice is the same as deduplicating once |
| `App.MergeKeepsEveryName` | App.tsx:65-66 | the merge has distinct names, at most both lengths together, and exactly the names of the existing and the imported contacts |
| `App.MergeKeepsExistingPlaces` | App.tsx:65-66 | existing contacts with distinct names keep their positions and names in the merge |
| `App.SyncCanDropAnId` | App.tsx:65-66 | a device contact named "Alice Wonder" replaces seed contact "1", so no merged contact has id "1" |
| `App.Postbox.constructor` | App.tsx:14-15 | before startup: no letters, the seed contacts, and the given storage |
| `App.Postbox.Start` | App.tsx:17-44 | stored letters and contacts are loaded; the seed letter is written and persisted only when no letters are stored; storage mirrors memory afterwards |
| `App.Postbox.Send` | App.tsx:75-96 | the letters become the old letters plus the new letter, persisted; contacts are untouched |
| `App.Postbox.SyncContacts` | App.tsx:46-73 | without the capability, or when the picker throws, nothing changes; otherwise contacts become the deduplicated merge of the old contacts and the imported ones (one clock reading and one draw per device contact), with distinct names, and are persisted; letters are untouched |
| `LetterEditor.AttachmentTypeOf` | components/LetterEditor.tsx:34-36 | Audio exactly for an "audio/" prefix, Video exactly for "video/", Image for everything else |
| `LetterEditor.NextActiveStamp` | components/LetterEditor.tsx:140 | clicking the active design deselects it; clicking any other design selects it |
| `LetterEditor.StampRotation` | components/LetterEditor.tsx:73 | for a draw in [0, 1) the rotation lies in [-20, 20) |
| `LetterEditor.NewStamp` | components/LetterEditor.tsx:68-74 | the stamp has the active design, the click position, id "stamp-" plus the clock, and an in-range rotation |
| `LetterEditor.PolishedContent` | components/LetterEditor.tsx:47-53 | empty content stays empty; a non-empty answer replaces non-empty content; otherwise the content is kept; non-empty content never becomes empty |
| `LetterEditor.TravelTimeHours` | components/LetterEditor.tsx:79-80 | distance/100 hours for the selected contact, 0 when no contact has the id |
| `LetterEditor.TravelTimeIsDeliveryDelay` | components/LetterEditor.tsx:79-80 | for a non-zero distance, the shown hours times one hour in ms equal the delay the sent letter gets |
| `LetterEditor.ZeroDistanceTravelsOneHour` | components/LetterEditor.tsx:79-80 | a contact at distance 0 is shown as 0 hours, yet the letter is timed as one hour |
| `LetterEditor.Editor.constructor` | components/LetterEditor.tsx:15-21 | a blank letter to the first contact (or to "" with no contacts), first font and paper, no attachments, stamps or active design; sending is disabled |
| `LetterEditor.Editor.Payload` | components/LetterEditor.tsx:220 | the editor state plus the selected contact's distance, missing exactly when no contact has the recipient id |
| `LetterEditor.Editor.Write` | components/LetterEditor.tsx:209-221 | the content is replaced; send is enabled exactly when content and recipient id are both non-empty |
| `LetterEditor.Editor.ChooseRecipient` | components/LetterEditor.tsx:105 | the recipient id is replaced and nothing else changes |
| `LetterEditor.Editor.ChooseFont` | components/LetterEditor.tsx:125 | the font is replaced and nothing else changes |
| `LetterEditor.Editor.UploadFile` | components/LetterEditor.tsx:28-45 | with no file nothing changes; otherwise exactly one attachment of the classified type is appended |
| `LetterEditor.Editor.ToggleStamp` | components/LetterEditor.tsx:140 | the active design becomes the toggle of the clicked one |
| `LetterEditor.Editor.PlaceStamp` | components/LetterEditor.tsx:61-77 | a stamp is appended only when a design is active; otherwise the stamps are unchanged |
| `LetterEditor.Editor.Polish` | components/LetterEditor.tsx:47-53 | the content follows the polish rule; an enabled send stays enabled |
| `LetterTrackingView.TrackedRecipient` | components/LetterTrackingView.tsx:12 | the seed contact with the id, or "Friend" / "Unknown" with no avatar |
| `LetterTrackingView.DeviceRecipientIsUnknown` | components/LetterTrackingView.tsx:12 | a "device-" id always falls back to "Friend" |
| `LetterTrackingView.Progress` | components/LetterTrackingView.tsx:14 | `min(100, elapsed/span x 100)`: for a positive span it is exactly 100 once due and otherwise the proportion elapsed/span x 100, below 100 and not cut below 0 (negative before sentAt); for a negative span it is 100 up to the due time and the same proportion after it; for a zero span it is 100 after sentAt and not a finite number otherwise |
| `LetterTrackingView.ProgressMonotone` | components/LetterTrackingView.tsx:14 | for a letter due after it was sent, progress never decreases as now grows |
| `LetterTrackingView.MinutesLeft` | components/LetterTrackingView.tsx:15 | never negative; 0 exactly once now reaches delivery; otherwise the remaining ms rounded up to whole minutes |
| `LetterTrackingView.MinutesLeftAntitone` | components/LetterTrackingView.tsx:15 | minutes left never increase as now grows |
| `LetterTrackingView.CourierPosition` | components/LetterTrackingView.tsx:53 | the marker has covered progress/100 of the straight route from (15, 75) to (85, 35) in each coordinate: at those points for progress 0 and 100, and inside that box for progress in [0, 100] |

## Findings

| source | as written | input that shows it | evidently intended | confidence | as-written member | corrected member |
|---|---|---|---|---|---|---|
| App.tsx:34 | the seed stamp's design is the six characters "ðŸ•Šï¸": the UTF-8 bytes of the dove glyph read as Windows-1252 | first start with nothing stored: the seed letter's stamp is none of the ten designs (`App.SeedStampAsWrittenIsNoDesign`) | the dove, the first design of STAMP_DESIGNS (constants.ts:17) | high that it is a mis-encoding; not executed | `App.SeedLetterAsWritten` | `App.SeedLetter` (used by `App.Postbox.Start`) |

## Left out

- JSX rendering, CSS classes, layout and date/time formatting are left out: they are presentation only. This includes the `view`, `selectedLetter` and `trackingLetter` navigation state and `setView` after a send.
- components/LetterView.tsx is not part of this model. It only renders a letter.
- services/geminiService.ts is not part of this model. It is a call to a remote text service. Its answer enters as the `rewritten` parameter of `Editor.Polish`.
- `localStorage` and JSON are modelled as the two `Option` storage fields of `Postbox`, holding the very sequences written. Malformed stored data is not modelled.
- Browser I/O enters as parameters: FileReader gives `dataUrl`, the click position and paper bounds give `x`, `y` and `paperMounted`, and the Contact Picker gives `supported` and `PickResult`.
- A device record without a name list, where the source throws inside its `try`, is not modelled.
- `Date.now()` and `Math.random()` are parameters. The draw range [0, 1) appears as a hypothesis of the ensures that need it.
- The one-second polling timer, async/await and the `isPolishing`/`isSyncing` flags are left out. A polish request and its answer are one step: the model checks for empty content when the answer arrives, the source when the request is made.
- IEEE-754 rounding is left out: distances and times are integers, ratios are exact reals, and the rounded-up minutes use exact integer division. Of the non-finite progress values, +Infinity (clamped to 100) is modelled; NaN and -Infinity are None.
- App.ImportDeviceContact: `encodeURIComponent` is not modelled; the raw first name (or "undefined") is placed in the avatar URL.
- The paper of a letter is always the default: the source never calls `setPaper`, so the model has no operation to change it.
- Letters stored without a stamp list (`stamps || []` in the letter view) are not modelled.
