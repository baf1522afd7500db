# Digital Dukan booking form and cart — a Dafny model

Digital Dukan is a single-page site for a local services business. Besides static
marketing content, its one React component holds a small piece of real logic:

- a booking form with four field rules: name, phone, email and date;
- a submit handler that either shows the rule messages or stores the booking and
  opens a pre-filled e-mail draft;
- a Reset button;
- a product cart whose entries are toggled on and off by product id, with a Clear
  button.

This project models that logic and proves what it does. There are five modules:

- `Text` (text.dfy): the ECMAScript white-space set behind the regex class `\s` and
  `String.prototype.trim`. It models `trim`, `trimStart`/`trimEnd` and
  `replace(/\s+/g, '')`.
- `Bookings` (booking.dfy): the eight-field booking record, its default value, and
  the field update `{ ...prev, [name]: value }`.
- `Validation` (validation.dfy): `validateBooking`.
  - Each regular expression is a predicate in the regex's own shape (`PhoneRegex`,
    `EmailRegex`).
  - The email regex also has a positional description, `EmailShape`, proved to be
    the same language.
  - Each regex has a one-pass scanning method (`ScanPhone`, `ScanEmail`) proved to
    decide it.
  - `Judge` gives the four rule outcomes of a booking, `ErrorsOf` turns them into the
    error object, and `ValidateBooking` is the two together.
  - `JudgeBooking` computes the outcomes with `trim()` and with the two scanning
    methods standing in for the regex tests, and `CheckBooking` builds the error
    object from it; both are proved equal to the pure versions.
- `Cart` (cart.dfy): the updater of `toggleCart` as a function on sequences, with
  its laws.
- `App` (app.dfy): the component's state as a class `DigitalDukan`.
  - Its fields are `booking`, `errors`, `sent`, `productCart`, the stored
    `lastBooking` and a ghost log of e-mail drafts.
  - There is one method per handler.
  - Its invariant `Valid()` says three things:
    - the cart never holds two entries with one id;
    - only checked fields carry errors;
    - once the success banner shows, the stored booking is the record of the last
      draft.
  - Three client methods run the model's own example bookings and products through
    the class:
    `InvalidSubmitSession`, `ValidSubmitSession` and `CartSession`.

## Model

| member | source | states |
|---|---|---|
| `Text.IsWhitespace` | src/digital_dukan_react_tailwind_single_file_preview.jsx:48-50 | defines the white-space set shared by the regex class `\s` and `trim()`: tab, line feed, vertical tab, form feed, carriage return, space, no-break space, U+1680, U+2000 to U+200A, the line and paragraph separators, U+202F, U+205F, U+3000 and the byte-order mark |
| `Text.StripWhitespace` | src/digital_dukan_react_tailwind_single_file_preview.jsx:49 | `replace(/\s+/g, '')` leaves no white space, is no longer than its input, and leaves a string without white space unchanged |
| `Text.StripAppend` | src/digital_dukan_react_tailwind_single_file_preview.jsx:49 | white-space deletion works piecewise over concatenation, so the characters kept stay in order |
| `Text.TrimStart` | src/digital_dukan_react_tailwind_single_file_preview.jsx:48 | the result is a suffix of the input, what was dropped is all white space, and the result does not start with white space |
| `Text.TrimEnd` | src/digital_dukan_react_tailwind_single_file_preview.jsx:48 | the result is a prefix of the input, what was dropped is all white space, and the result does not end with white space |
| `Text.Trim` | src/digital_dukan_react_tailwind_single_file_preview.jsx:48 | `name.trim()` is empty exactly when the name is all white space (or empty); otherwise it starts and ends with a non-white-space character |
| `Validation.PhoneRegex` | src/digital_dukan_react_tailwind_single_file_preview.jsx:49 | defines `^\+?[0-9]{7,15}$` in the regex's own shape: 7 to 15 ASCII digits, optionally after one leading '+', and nothing else |
| `Validation.PhoneAccepted` | src/digital_dukan_react_tailwind_single_file_preview.jsx:49 | defines the phone rule: the phone pattern is matched after every white-space character is deleted |
| `Validation.ScanPhone` | src/digital_dukan_react_tailwind_single_file_preview.jsx:49 | one pass that deletes white space and matches `^\+?[0-9]{7,15}$` accepts exactly the phones the phone rule accepts |
| `Validation.PhoneRegexByCount` | src/digital_dukan_react_tailwind_single_file_preview.jsx:49 | `^\+?[0-9]{7,15}$` holds exactly when, after an optional leading '+', every character is a digit and there are 7 to 15 of them |
| `Text.StripSnoc` | src/digital_dukan_react_tailwind_single_file_preview.jsx:49 | reading one more character adds it to the white-space-free text unless it is white space |
| `Validation.PhoneIgnoresWhitespace` | src/digital_dukan_react_tailwind_single_file_preview.jsx:49 | inserting a white-space character anywhere never changes the phone verdict |
| `Validation.StripSpacedGroups` | src/digital_dukan_react_tailwind_single_file_preview.jsx:49 | three white-space-free groups joined by single spaces strip to their concatenation |
| `Validation.ExamplePhoneStripped` | src/digital_dukan_react_tailwind_single_file_preview.jsx:224 | the placeholder phone "+91 98765 43210" strips to "+919876543210" |
| `Validation.ExamplePhoneAccepted` | src/digital_dukan_react_tailwind_single_file_preview.jsx:49 | the placeholder phone passes the phone rule |
| `Validation.EmailRegex` | src/digital_dukan_react_tailwind_single_file_preview.jsx:50 | defines `^[^@\s]+@[^@\s]+\.[^@\s]+$` in the regex's own shape: a split into A '@' B '.' C, each part a non-empty run of characters that are neither '@' nor white space |
| `Validation.EmailShape` | src/digital_dukan_react_tailwind_single_file_preview.jsx:50 | defines the same language by positions: no white space, exactly one '@', not first, and a '.' at least two places after it and before the last character |
| `Validation.PlainSlice` | src/digital_dukan_react_tailwind_single_file_preview.jsx:50 | a slice matches `[^@\s]+` exactly when it is non-empty and holds neither '@' nor white space |
| `Validation.EmailRegexIff` | src/digital_dukan_react_tailwind_single_file_preview.jsx:50 | `^[^@\s]+@[^@\s]+\.[^@\s]+$` holds exactly when the string has no white space, exactly one '@', at a position i > 0, and a '.' at some j with i+1 < j < length-1 |
| `Validation.ScanEmail` | src/digital_dukan_react_tailwind_single_file_preview.jsx:50 | one pass over the string accepts exactly the strings the email regex matches |
| `Validation.ExampleEmailAccepted` | src/digital_dukan_react_tailwind_single_file_preview.jsx:50 | "a@b.co" has the accepted email shape |
| `Validation.Judge` | src/digital_dukan_react_tailwind_single_file_preview.jsx:48-51 | defines the four rule outcomes of a booking: the name is blank (all white space), the phone rule holds, the email pattern holds, the date is empty |
| `Validation.ErrorsOf` | src/digital_dukan_react_tailwind_single_file_preview.jsx:47-52 | the error object names only checked fields; it has an entry for a field exactly when that field's rule failed, and the entry is that rule's message |
| `Validation.ValidateBooking` | src/digital_dukan_react_tailwind_single_file_preview.jsx:46-53 | `validateBooking` only ever names the four checked fields: name, phone, email and date |
| `Validation.ValidateBookingRules` | src/digital_dukan_react_tailwind_single_file_preview.jsx:46-53 | each checked field has an entry exactly when its rule fails, and then it holds that rule's message. The rules: a name error iff the name is all white space; a phone error iff the phone is rejected; an email error iff the email lacks the positional shape; a date error iff the date is "" |
| `Validation.ValidateIgnoresUncheckedFields` | src/digital_dukan_react_tailwind_single_file_preview.jsx:46-53 | bookings that agree on name, phone, email and date get the same errors: service, time, address and message never cause or suppress one |
| `Validation.ExampleValidBooking` | src/digital_dukan_react_tailwind_single_file_preview.jsx:46-53 | a complete booking (name "Asha", the placeholder phone, email "a@b.co", a date) draws no error |
| `Validation.ExampleInvalidBooking` | src/digital_dukan_react_tailwind_single_file_preview.jsx:46-53 | empty name, phone "123", email "bad" and no date draw errors on exactly the four checked fields |
| `Validation.JudgeBooking` | src/digital_dukan_react_tailwind_single_file_preview.jsx:48-51 | `name.trim()` compared with the empty string, the phone scanner, the email scanner and the date test give exactly the four rule outcomes; in particular the trimmed name is empty exactly when the name is all white space |
| `Validation.CheckBooking` | src/digital_dukan_react_tailwind_single_file_preview.jsx:46-53 | the validator built on the two scanners returns exactly `ValidateBooking` |
| `Bookings.Empty` | src/digital_dukan_react_tailwind_single_file_preview.jsx:39-41 | defines the record the form starts from, and returns to at lines 72 and 266: every field empty except the service, which is 'digital' |
| `Bookings.Set` | src/digital_dukan_react_tailwind_single_file_preview.jsx:57 | `{ ...prev, [name]: value }` gives the named field the new value and leaves the seven others as they were |
| `Bookings.FieldsDetermineBooking` | src/digital_dukan_react_tailwind_single_file_preview.jsx:39-41 | two bookings with the same eight field values are equal |
| `Bookings.SetSetSameField` | src/digital_dukan_react_tailwind_single_file_preview.jsx:55-58 | of two edits of one field, only the later one is seen |
| `Bookings.SetSetCommute` | src/digital_dukan_react_tailwind_single_file_preview.jsx:55-58 | edits of two different fields commute |
| `Cart.InCart` | src/digital_dukan_react_tailwind_single_file_preview.jsx:82 | defines `cart.find(p => p.id === id)` being truthy: some entry has that id (the same test decides "Added" at lines 187-188) |
| `Cart.RemoveId` | src/digital_dukan_react_tailwind_single_file_preview.jsx:82 | `filter(p => p.id !== id)` keeps exactly the entries with another id; the cart gets shorter iff the id was in it, and is unchanged when it was not |
| `Cart.RemoveIdKeepsNoDup` | src/digital_dukan_react_tailwind_single_file_preview.jsx:82 | removal keeps the ids of a cart distinct |
| `Cart.RemoveIdAppend` | src/digital_dukan_react_tailwind_single_file_preview.jsx:82 | removal works piecewise over concatenation, so the remaining entries keep their relative order |
| `Cart.RemoveIdAt` | src/digital_dukan_react_tailwind_single_file_preview.jsx:82 | in a cart with distinct ids, removing the id of entry k yields the cart without entry k and nothing else changed |
| `Cart.Toggle` | src/digital_dukan_react_tailwind_single_file_preview.jsx:80-85 | afterwards p's id is in the cart iff it was not before, and no other id changes membership. When p was absent it is appended at the end behind the unchanged cart. When present, the result is `RemoveId(cart, p.id)`: every entry with that id is removed and the rest keep their order and count. Distinct ids stay distinct |
| `Cart.ToggleAbsentTwice` | src/digital_dukan_react_tailwind_single_file_preview.jsx:80-85 | toggling an absent product twice restores the original cart |
| `Cart.TogglePresentTwice` | src/digital_dukan_react_tailwind_single_file_preview.jsx:80-85 | toggling a present product twice gives the cart without that id, with p appended at the end |
| `Cart.ToggleTwiceReorders` | src/digital_dukan_react_tailwind_single_file_preview.jsx:80-85 | toggle is not its own inverse: [a, b] toggled twice on a becomes [b, a] |
| `App.DigitalDukan.constructor` | src/digital_dukan_react_tailwind_single_file_preview.jsx:39-44 | the mounted state is the default booking (service 'digital'), no errors, no banner and an empty cart |
| `App.DigitalDukan.ChangeField` | src/digital_dukan_react_tailwind_single_file_preview.jsx:55-58 | the edited field takes the new value. Every other booking field, the errors, the banner, the cart and the stored booking are unchanged |
| `App.DigitalDukan.Submit` | src/digital_dukan_react_tailwind_single_file_preview.jsx:60-78 | errors become exactly the validator's verdict on the pre-submit booking. With errors: booking, banner, stored booking and drafts are unchanged. Without: the pre-submit booking is stored, the banner shows, the form is reset to the default, and a draft to the business address naming the submitter and carrying the pre-submit record is added. The cart is unchanged either way |
| `App.DigitalDukan.Reset` | src/digital_dukan_react_tailwind_single_file_preview.jsx:266 | the booking returns to the default and the errors are cleared; the banner, cart and stored booking are unchanged |
| `App.DigitalDukan.ToggleCart` | src/digital_dukan_react_tailwind_single_file_preview.jsx:80-85 | the cart becomes `Toggle(cart, p)`, so the no-duplicate-ids invariant holds; the form state is unchanged |
| `App.DigitalDukan.ClearCart` | src/digital_dukan_react_tailwind_single_file_preview.jsx:199 | the cart is empty whatever it held, so a second Clear changes nothing; the form state is unchanged |

Toggle is not its own inverse
(src/digital_dukan_react_tailwind_single_file_preview.jsx:82-83). Toggling a present
entry that is not last removes it, and toggling it again appends it at the end.
`Cart.ToggleAbsentTwice` proves the round trip for an absent product, and
`Cart.ToggleTwiceReorders` exhibits a cart that the double toggle reorders.

## Left out

- Rendering: the JSX markup, Tailwind classes, static marketing text, the two catalog
  arrays (lines 26-36) and the price display strings are presentation only.
  - The default service id "digital" is kept as a constant.
  - Whether the rendering shows "Added" depends only on `Cart.InCart` (lines 187-188).
- Local storage: `localStorage.setItem` and `JSON.stringify` (line 71) become the
  assignment of the record to the `lastBooking` field. The serialised text is not
  modelled, and a storage failure is not modelled. What storage held before mount is
  a constructor parameter.
- `console.log` (line 68) is not modelled.
- The mail draft: the `mailto:` URI with its `encodeURIComponent` escaping, and
  `window.open` (lines 75-77). These are calls into the browser. The model records,
  in the ghost field `drafts`, that a draft was handed over: its address, the
  submitter's name and the submitted record.
- `new Date().getFullYear()` (line 293) reads the clock; it only feeds the footer.
- React's asynchronous `setState` batching: each handler is one atomic transition.
- `App.DigitalDukan.ChangeField`: it takes one of the form's eight field names. In
  JavaScript, `[name]: value` would also add a key under any other name, but every
  input of the form (lines 218-261) uses one of those eight.
- The claim that `service` is always a catalog id is not proved. `handleBookingChange`
  stores any value; only the `<select>` (lines 236-238) restricts it.
- JavaScript strings are UTF-16 code units; the model's characters are Unicode
  scalar values.
  - A character outside the Basic Multilingual Plane is one character here and two
    code units there.
  - The rules give the same verdicts either way: such characters are neither white
    space, '@', '.', '+' nor digits, and only the count of digits is bounded.
