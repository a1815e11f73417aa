# MedTracker core, modelled in Dafny

MedTracker is a mobile app in which a user keeps a weekly medication schedule.
Each medication has days (0 = Sunday … 6 = Saturday), clock times ("HH:MM") and
a `taken` map from occurrence keys `<date>T<HH:MM>` to acknowledgments. This
project models the three self-contained pieces of logic in that app:

- **Medication service** (`lib/medications.ts`, module `Medications`).
  `markMedicationTaken` builds a new `taken` map. The device's weekly reminders
  are kept in step with the stored medications. Each reminder trigger has the
  identifier `med_<id>_<day>_<time>`. Scheduling installs one trigger per
  (day, time) pair. Cancelling removes every trigger whose identifier starts
  with `med_<id>_`. Add schedules, update cancels and then schedules, and delete
  cancels. The notification library is the class `Notifier`, a map from
  identifier to trigger. Scheduling under an identifier already in use replaces
  the old trigger. The record store is reduced to the response it returns.
- **Medication form** (`components/MedicationModal.tsx`, module
  `MedicationModal`). The class `MedicationForm` holds the form state. It has the
  list edits behind the day and time buttons and the effect that fills the form
  when it opens. `HandleSave` validates the form and normalises the record
  handed to `onSave`.
- **Product catalogue** (`src/stripe-config.ts`, module `StripeConfig`). It is a
  constant list with two first-match lookups.

Supporting modules: `JsText` models the JavaScript string operations the code
uses. These are `trim` with ECMAScript's whitespace set, `startsWith`, `split`,
`Number(...)` and `${n}`. `JsArrays` models `filter` and index-wise `map`.
`Database` holds the row shapes, and `Wrappers` holds Option and Result.

Main results:
- Identifiers of one medication never collide (`NotificationIdInjective`). As a
  result, scheduling installs exactly the identifier grid of days × times, each
  with the reminder for its own day and time (`PlannedContents`). The reminder
  has weekday = day + 1, the parsed hour and minute, and repeats.
- After an update, the identifiers under the medication's prefix are exactly the
  new grid, and nothing outside the prefix changes (`RescheduleReplacesPrefix`).
- Cancelling leaves the triggers of another medication alone when neither id
  contains `_` (`CancelKeepsOtherMedications`). Without that condition the
  prefix is ambiguous: cancelling medication `1` also matches the triggers of
  medication `1_2` (`PrefixAmbiguousWithUnderscore`). The source does not
  enforce this: ids are free strings, and an imported record keeps its own id.
  The guarantee holds only assuming ids contain no `_`, as generated UUIDs do.
- Each form operation, applied to the committed state, keeps at least one
  time slot (`MedicationForm.Valid`). The
  save checks run in the source's order, and the saved times are the non-blank
  entries in their original order (`HandleSave`, `FilterConcat`).

## Model

| member | source | states |
|---|---|---|
| `Medications.MarkTaken` | MedTracker-master/lib/medications.ts:62 | the new map has the old keys plus `dateTime`, maps `dateTime` to true and keeps every other entry |
| `Medications.MarkTakenIdempotent` | MedTracker-master/lib/medications.ts:62 | marking twice equals marking once; marking an already-taken key returns the same map |
| `Medications.NotificationId` | MedTracker-master/lib/medications.ts:101 | every identifier of medication `id` starts with `med_<id>_`, the prefix that cancellation matches |
| `Medications.Reminder` | MedTracker-master/lib/medications.ts:87-100 | the trigger has weekday day + 1, repeats, plays a sound, and its title names the medication |
| `Medications.ReminderClock` | MedTracker-master/lib/medications.ts:87 | for a time made of digits, a colon and digits, the hour and minute are the numeric values of the two pieces |
| `Medications.InsertSource` | MedTracker-master/lib/medications.ts:26 | `{ ...data, ...medication }`: the submitted name, days and times override the stored ones, and the id is the submitted one when given, otherwise the stored one |
| `Medications.UpdateSource` | MedTracker-master/lib/medications.ts:40 | `{ ...data, ...updates }`: every submitted field overrides the stored one, and every absent field keeps the stored value |
| `Medications.NotificationIdInjective` | MedTracker-master/lib/medications.ts:101 | two identifiers of the same medication are equal only when day and time are equal |
| `Medications.OtherMedicationOutsidePrefix` | MedTracker-master/lib/medications.ts:75 | another medication's identifier does not start with this medication's prefix when neither id contains `_` |
| `Medications.PrefixAmbiguousWithUnderscore` | MedTracker-master/lib/medications.ts:75 | a trigger of medication `1_2` does start with the prefix of medication `1` |
| `Medications.DayPlanContents` | MedTracker-master/lib/medications.ts:86-103 | one day's plan holds the identifier of every time of that day, each with its own reminder, and nothing else |
| `Medications.PlannedForValues` | MedTracker-master/lib/medications.ts:85-104 | every (day, time) pair is planned with the reminder for that day and time; a later pair never overwrites an earlier one |
| `Medications.PlannedForKeys` | MedTracker-master/lib/medications.ts:85-104 | the planned identifiers are exactly `med_<id>_<d>_<t>` for d in days and t in times |
| `Medications.PlannedContents` | MedTracker-master/lib/medications.ts:84-104 | nothing is planned when id is missing or empty or days or times are missing; otherwise exactly the grid, each identifier with its reminder |
| `Medications.RescheduleReplacesPrefix` | MedTracker-master/lib/medications.ts:38-41 | after cancel then schedule under the same id, the identifiers under the prefix are exactly the new grid, and identifiers outside the prefix keep their presence and their trigger |
| `Medications.CancelKeepsOtherMedications` | MedTracker-master/lib/medications.ts:73-78 | cancelling one medication keeps every trigger of another medication, unchanged, when neither id contains `_` |
| `Medications.ScheduleDay` | MedTracker-master/lib/medications.ts:86-103 | the inner loop adds one day's plan to the notifier |
| `Medications.ScheduleMedicationNotifications` | MedTracker-master/lib/medications.ts:82-105 | the notifier afterwards is the old one overridden by the planned triggers |
| `Medications.CancelMedicationNotifications` | MedTracker-master/lib/medications.ts:73-79 | the notifier afterwards is the old one without the identifiers that start with `med_<id>_`, and all other entries are unchanged |
| `Medications.AddMedication` | MedTracker-master/lib/medications.ts:19-29 | triggers of the merged record are scheduled only when the store returned data and no error; the response is passed back |
| `Medications.UpdateMedication` | MedTracker-master/lib/medications.ts:31-43 | only on data and no error: cancel under `id`, then schedule the row merged with the updates; otherwise the notifier is unchanged |
| `Medications.DeleteMedication` | MedTracker-master/lib/medications.ts:45-52 | cancels under `id` whatever the store reported; no identifier with the prefix remains |
| `JsText.RunEnd` | MedTracker-master/components/MedicationModal.tsx:79 | the index reached is the end of the whitespace run starting at the given index: everything skipped is whitespace and the next character is not |
| `JsText.RunStart` | MedTracker-master/components/MedicationModal.tsx:79 | the index reached is the start of the whitespace run ending at the given index, never below the lower bound: everything skipped is whitespace and the character before is not |
| `JsText.Trim` | MedTracker-master/components/MedicationModal.tsx:79 | the result is an infix with only whitespace around it and no whitespace at either end, and it is empty exactly when the input is all whitespace |
| `JsText.TrimIdempotent` | MedTracker-master/components/MedicationModal.tsx:96 | trimming a trimmed string changes nothing |
| `JsText.Split` | MedTracker-master/lib/medications.ts:87 | split yields at least one piece, and no piece contains the separator |
| `JsText.JoinSplit` | MedTracker-master/lib/medications.ts:87 | joining the pieces with the separator gives back the input |
| `JsText.SplitAfterPiece` | MedTracker-master/lib/medications.ts:87 | a piece without the separator is not split, and a separator after it closes it |
| `JsText.NatToString` | MedTracker-master/lib/medications.ts:101 | the decimal numeral is non-empty and made of digits |
| `JsText.NatToStringRoundTrip` | MedTracker-master/lib/medications.ts:101 | reading the numeral back gives the number |
| `JsText.IntToString` | MedTracker-master/lib/medications.ts:101 | the numeral is non-empty and made of digits and '-', so it holds no `_` |
| `JsText.IntToStringInjective` | MedTracker-master/lib/medications.ts:101 | different days print differently |
| `JsText.ToNumber` | MedTracker-master/lib/medications.ts:87 | never undefined, and a blank string reads as 0 |
| `JsText.NumeralToNumber` | MedTracker-master/lib/medications.ts:87 | a digit string reads as its decimal value |
| `JsArrays.Filter` | MedTracker-master/components/MedicationModal.tsx:59 | the result holds exactly the elements that pass and is no longer than the input; when every element passes it is the input |
| `JsArrays.FilterConcat` | MedTracker-master/components/MedicationModal.tsx:89 | filtering distributes over concatenation, so survivors keep their original order |
| `JsArrays.FilterDistinct` | MedTracker-master/components/MedicationModal.tsx:59 | filtering a repetition-free list gives a repetition-free list |
| `JsArrays.RemoveAt` | MedTracker-master/components/MedicationModal.tsx:70 | an in-range index drops exactly that entry and keeps the rest in order; an out-of-range index changes nothing |
| `JsArrays.ReplaceAt` | MedTracker-master/components/MedicationModal.tsx:75 | same length; only the entry at the index changes |
| `MedicationModal.Toggled` | MedTracker-master/components/MedicationModal.tsx:56-62 | a selected day is removed everywhere and the others keep their order; an unselected day is appended |
| `MedicationModal.ToggleTwice` | MedTracker-master/components/MedicationModal.tsx:56-62 | toggling a day twice restores which days are selected |
| `MedicationModal.ToggleKeepsDistinct` | MedTracker-master/components/MedicationModal.tsx:56-62 | toggling never selects a day twice |
| `MedicationModal.ValidTimes` | MedTracker-master/components/MedicationModal.tsx:89-90 | the kept times are entries that are not all whitespace, and none are kept exactly when every entry is blank |
| `MedicationModal.TrimmedOrNull` | MedTracker-master/components/MedicationModal.tsx:97-98 | null exactly for all-whitespace text, otherwise the non-empty trimmed text |
| `MedicationModal.MedicationForm.constructor` | MedTracker-master/components/MedicationModal.tsx:34-38 | empty texts, no days, one blank time slot |
| `MedicationModal.MedicationForm.Initialize` | MedTracker-master/components/MedicationModal.tsx:40-54 | editing copies the medication, with null texts as empty and an empty time list as one blank slot; a new form preselects the given day, if any, and has one blank slot |
| `MedicationModal.MedicationForm.ToggleDay` | MedTracker-master/components/MedicationModal.tsx:56-62 | the selected days become the toggled list |
| `MedicationModal.MedicationForm.AddTimeSlot` | MedTracker-master/components/MedicationModal.tsx:64-66 | exactly one blank entry is appended, and the existing entries are unchanged |
| `MedicationModal.MedicationForm.RemoveTimeSlot` | MedTracker-master/components/MedicationModal.tsx:68-72 | removes the entry only when there is more than one, so at least one slot always remains |
| `MedicationModal.MedicationForm.UpdateTime` | MedTracker-master/components/MedicationModal.tsx:74-76 | only entry `index` is replaced |
| `MedicationModal.MedicationForm.HandleSave` | MedTracker-master/components/MedicationModal.tsx:78-106 | rejects a blank name, then no days, then no non-blank time, each exactly in its case; otherwise the record has the trimmed name, dosage and notes (null when blank), the selected days, the non-blank times untrimmed and in order, and the edited medication's `taken` or an empty map |
| `StripeConfig.FindIndex` | MedTracker-master/src/stripe-config.ts:24 | the first index whose product matches, or none exactly when no product matches |
| `StripeConfig.GetProductById` | MedTracker-master/src/stripe-config.ts:23-25 | a returned product has the queried id and is in the catalogue; undefined exactly when no entry has that id |
| `StripeConfig.GetProductByPriceId` | MedTracker-master/src/stripe-config.ts:27-29 | a returned product has the queried price id and is in the catalogue; undefined exactly when no entry has that price id |
| `StripeConfig.CatalogueEntry` | MedTracker-master/src/stripe-config.ts:11-21 | the product `prod_SGTL2wI8TSPe4d` costs 100 in `brl`, is a one-off payment, and is also found by its price id |

## Left out

- The record store (Supabase): `getMedications` and the insert, update and delete round trips are network I/O. A store call is modelled only by the `data`/`error` response it returns, given as an input.
- `markMedicationTaken` writes through the store. The model is only the `taken` value it writes. The medication id and the `updated_at` wall-clock timestamp are not modelled.
- The asynchronous notification library is modelled as a sequential map. A scheduling call that the library rejects, for example with a NaN hour, would abort the remaining iterations in the app. The model does not capture that.
- `MedicationInsert` and `MedicationUpdate` keep only the fields that reach the reminder logic. A key that is present with the value `undefined` is treated as absent.
- Days are modelled as integers. The stored JSON could hold fractional numbers.
- ToNumber: reads only blank strings and plain decimal digits. JavaScript's `Number` also accepts signs, fractions, exponents, hexadecimal and `Infinity`; the model reads all of these as NaN.
- CancelKeepsOtherMedications: a cancel spares another medication's triggers only when neither id contains `_`. The source accepts any string as an id, including ids of imported records, so this is a stated assumption, not something the app enforces.
- MedicationForm.RemoveTimeSlot: the source tests the length of the rendered `times` but filters the pending `prev`. The model uses one state for both, so it matches only when each tap sees the committed state. Two removals batched before a re-render could empty the list; the model does not capture that.
- The form's rendering, the text setters bound to the inputs, and their `maxLength` limits are presentation only.
- Dose lookups in the screens (`app/(tabs)/*.tsx`), OCR (`lib/ocr.ts`), prescriptions (`lib/prescriptions.ts`), checkout and `formatPrice` (`src/lib/stripe.ts`) are not part of this model. They are I/O, foreign calls, floating point or UI.
