# Community health-screening form: state model

This project models the state logic of the community form component
(`src/components/community/CommunityForm.js`). The component collects
personal information, an address, symptoms and underlying conditions, and
only allows submission once a captcha has been solved. Underneath the
rendering it keeps four pieces of state: the form record, the captcha
response text, a sticky captcha-expired flag and a `clear` token. It has
five pieces of logic:

- **Field router** (`FieldRouter`). A field change builds a new form
  record. The field's name is checked against the `UNDERLYING`, `ADDRESS`
  and `SYMPTOMS` membership lists, in that order. A match rewrites the
  matching nested record; a name in no list rewrites the top-level property
  of that name.
  - The record is a `map<string, Value>`. A `Value` is a string, an opaque
    primitive or a nested record (`FormValues`).
  - `{ ...v }` is modelled as JavaScript does it (`Spread`).
    `undefined` and primitives copy nothing. A record copies its entries.
    A string copies one entry per character, keyed by the index.
- **Symptom branch, as written.** The symptom branch writes into `address`,
  and it spreads from `formValues.symptom` rather than from a symptoms record.
  The model keeps this behaviour. `SymptomChange` states what it does and
  `SymptomChangeDropsAddress` shows a concrete case: the address entries are
  lost and the symptoms record is never written.
- **Validity gate** (`CommunityForm.IsFormValid`). The gate is false unless
  the captcha response is non-empty and not expired. Otherwise it is the AND
  of every present validator, applied to the current value of its property.
  The loop is proved against the fold `FieldsValid`. `FieldsValidMeans`
  shows that this fold is the conjunction over the fields that have
  validators.
- **Captcha status** (`Captcha`). A report is stored as is, and a `null`
  report sets the expired flag for good. `RunOutcome` describes any
  sequence of reports.
  - The flag is set on every `null` report, including one that comes
    before any response (`CommunityForm.js` line 30); the model does the same.
- **Submission** (`HandleSubmit`, `SubmitSucceeded`). `onSubmit` receives
  the current record. On success the record becomes `{}` and `clear`
  becomes one more than the value captured when the button was pressed.
  - Two submissions that overlap therefore advance the token by one, not
    two (`OverlappingSubmits`).

The membership lists, the initial record and the field descriptors are
defined elsewhere in the repository and are parameters here.
- The lists are the class constant `lists`.
- The initial record is a constructor argument.
- The descriptors are an argument of the members that use them, because the
  component recomputes them on every render.

Validators are opaque functions.

## Model

| member | source | states |
|---|---|---|
| FormValues.Spread | src/components/community/CommunityForm.js:44-66 | Spreading `undefined` or a primitive gives no entries; spreading a record gives exactly its entries; spreading a string gives index `i` mapped to its `i`-th character. |
| FormValues.DecimalStringInjective | src/components/community/CommunityForm.js:63 | Distinct string indices give distinct property names, so the entries of a spread string are all kept. |
| FormValues.CharEntriesKeys | src/components/community/CommunityForm.js:63 | A spread string has no entries other than its indices. |
| FieldRouter.FieldChange | src/components/community/CommunityForm.js:40-73 | A field change writes exactly one top-level property (the routed bucket, or the field itself). Every other property keeps its value, and no property is removed. |
| FieldRouter.RoutingPriority | src/components/community/CommunityForm.js:43-67 | The route is underlying iff the field is in `UNDERLYING`; address iff in `ADDRESS` and not `UNDERLYING`; symptoms iff only in `SYMPTOMS` of the first two checked; top level iff in none. |
| FieldRouter.UnderlyingChange | src/components/community/CommunityForm.js:43-50 | An `UNDERLYING` field sets `underlyingConditions[field]` and keeps the record's other entries and every other top-level property. |
| FieldRouter.AddressChange | src/components/community/CommunityForm.js:51-58 | An `ADDRESS` field not in `UNDERLYING` sets `address[field]` and keeps the other address entries and every other top-level property. |
| FieldRouter.SymptomChange | src/components/community/CommunityForm.js:59-66 | A field only in `SYMPTOMS` replaces `address` with the entries of `symptom` plus the new one, drops the address entries `symptom` lacks, and leaves every other property, a symptoms record included, unchanged. |
| FieldRouter.TopLevelChange | src/components/community/CommunityForm.js:67-71 | A field in no list sets only the top-level property of that name. |
| FieldRouter.SymptomChangeDropsAddress | src/components/community/CommunityForm.js:59-66 | Concrete case: changing `fever` loses the address's `city`, files `fever` under `address`, and leaves the symptoms record empty. |
| FieldRouter.BucketsStayRecords | src/components/community/CommunityForm.js:43-71 | When both nested buckets are records before a change, they are records after it, unless a top-level field named after a bucket overwrites it. |
| FieldRouter.ChangeAfterReset | src/components/community/CommunityForm.js:43-66 | After the reset to `{}`, a routed field creates its bucket with that single entry. |
| Fields.FieldsValidMeans | src/components/community/CommunityForm.js:119-123 | The in-order AND of present validators holds iff every field with a validator accepts its current value. |
| Fields.UnvalidatedFieldIgnored | src/components/community/CommunityForm.js:120 | Inserting a field without a validator anywhere in the list does not change the verdict. |
| Fields.FindField | src/components/community/CommunityForm.js:78 | Lookup gives nothing iff no descriptor edits the property; otherwise it gives the first descriptor that does. |
| Captcha.RunOutcome | src/components/community/CommunityForm.js:28-33 | After any sequence of reports the text is the last report, and the expired flag is set iff it was already set or some report was `null`. |
| Captcha.ExpiryIsPermanent | src/components/community/CommunityForm.js:28-33 | Once expired, no further report clears the flag or makes the captcha acceptable. |
| Captcha.AcceptedAfterRun | src/components/community/CommunityForm.js:19-33 | From the initial state the captcha is accepted iff there was a report, none was `null`, and the last one is non-empty. |
| Community.CommunityForm.constructor | src/components/community/CommunityForm.js:15-38 | The form starts from the initial record, empty captcha text, not expired, and `clear` 0. |
| Community.CommunityForm.HandleChange | src/components/community/CommunityForm.js:28-33 | The reported value becomes the captcha text. The flag becomes true on `null` and is never reset. Form values and `clear` are untouched. |
| Community.CommunityForm.HandleFieldChange | src/components/community/CommunityForm.js:40-73 | The record becomes the routed update of the previous record; captcha and `clear` are untouched. |
| Community.CommunityForm.RenderFormField | src/components/community/CommunityForm.js:77-83 | Nothing is drawn iff no descriptor edits the property; otherwise the first such descriptor is drawn with the current `clear` token. |
| Community.CommunityForm.HandleSubmit | src/components/community/CommunityForm.js:101-103 | `onSubmit` receives the current record, and the continuation captures the current `clear`. |
| Community.CommunityForm.SubmitSucceeded | src/components/community/CommunityForm.js:103-107 | On success the record is `{}` and `clear` is the captured token plus one, which is the old token plus one when no other submission completed in between. The captcha is untouched. |
| Community.CommunityForm.IsFormValid | src/components/community/CommunityForm.js:110-128 | The result is false when the captcha text is null or empty or the captcha is expired. Otherwise it is true iff every field with a validator accepts its current value. |
| Community.OverlappingSubmits | src/components/community/CommunityForm.js:101-107 | Two submissions started before either completes leave `clear` advanced by one and the record empty. |
| Community.SequentialSubmits | src/components/community/CommunityForm.js:101-107 | Two submissions completed one after the other advance `clear` by two. |

## Left out

- Rendering: JSX, the Material-UI layout, section and subsection headers, and the `occupationOther` conditional display are UI.
- The ReCAPTCHA widget, `asyncScriptOnLoad`, `isLoaded` and the 1500 ms timer in `useEffect` are a third-party widget and timer scheduling. The widget's reports are the arguments of `HandleChange`.
- The `onSubmit` promise itself is left out, including a rejection, which the component does not handle. `SubmitSucceeded` is the success continuation, and a failed submission simply never calls it.
- `console.log` calls are I/O.
- Code in other files is not part of this model; it enters as parameters:
  - `COMMUNITY_FIELDS`, `renderField`, `lang.t`, `config.captchaKey` and `CommunityInitialState`;
  - the contents of `UNDERLYING`, `ADDRESS` and `SYMPTOMS`;
  - the descriptors' labels, input kinds and change handlers.
- Community.CommunityForm.RenderFormField: names the descriptor it draws by its index and does not model what `renderField` draws.
- Fields.FindField: returns the index of the descriptor that `find` returns, since descriptors hold functions and cannot be compared.
- Community.CommunityForm.IsFormValid: validators return booleans. A validator returning a non-boolean truthy value, which JavaScript's `&&` would pass through, is not modelled.
- `isEmpty` is modelled only as "null or the empty string".
- Community.CommunityForm.HandleFieldChange: assumes the component re-renders between events, so each handler sees the latest record. Two changes batched into one render read the same stale record, and the later one would win; that is not modelled.
- JavaScript's property order, prototype keys such as `__proto__`, and UTF-16 code units (a string's characters are Dafny `char`s) are not modelled.
