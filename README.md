# frontendcarros — a Dafny model of the vehicle components

This project models the logic of three React components in the
`frontendcarros` web front end of a used-vehicle catalogue:

- **`TopCarContainer`** (the featured-vehicles list):
  - it normalises the list response (a bare array, or one wrapped in `vehicles` or `data`);
  - it shows a six-row page or the whole list;
  - it toggles the details of a row;
  - it edits a row in place (PUT) and deletes rows (DELETE).
- **`CreatedCar`** (the creation form): an ordered validation chain, the
  change handler, and the submit handler that builds a trimmed payload.
- **`AnalizarImg`** (image analysis):
  - it uploads a file and takes the backend's `resultado`;
  - a string result is cleaned of the "```json" and "```" fences, trimmed and parsed;
  - when parsing fails, the raw text is kept instead.

Modules: `Wrappers` (Option), `Js`, `Forms`, `TopCar`, `CreateCar` and
`ImageAnalysis`.

`Js` holds the slice of JavaScript the components rely on:
- parsed JSON values, JS numbers (seen only as NaN or not), and thrown errors;
- `String.prototype.trim`, modelled after section 22.1.3.32 of ECMA-262 with its WhiteSpace and LineTerminator sets.

`Forms` holds the three-string draft `{marca, kilometraje, precio}`. Both
the list's edit form and the creation form use it, with the same
`{ ...f, [name]: value }` change rule.

Each React component is a `class` whose fields are its `useState` cells.
Each asynchronous handler is split into two methods:
- a `Begin…` method: the state changes before the request;
- a `Finish…` method: the state changes after the response.

The response (or the thrown error) arrives as a parameter of the `Finish…`
method. The answer to `window.confirm` is a boolean parameter.
`modifies this`field` frames state which fields each step may change.

Three host routines are not interpreted:
- `Number(string)`;
- `String(number)`;
- `JSON.parse`, which is partial and returns `None` where it throws.

They are fields of `Js.Runtime` and are passed in, so every property is
proved for every behaviour of those routines.

## Model

| member | source | states |
|---|---|---|
| Js.Get | frontend_webapp/src/containers/analizarimg.tsx:41 | reading a property throws exactly on null and undefined; an object yields the field, or undefined when it is missing; any other value reads undefined |
| Js.ToNumber | frontend_webapp/src/containers/topcar.tsx:67 | `Number(x)` on a primitive: numbers unchanged, strings to the runtime's `Number`, undefined to NaN, null and booleans to finite values |
| Js.MessageOf | frontend_webapp/src/containers/topcar.tsx:91 | a caught `Error` shows its message; anything else thrown shows the fallback |
| Js.Trim | frontend_webapp/src/containers/createcar.tsx:61-62 | `String.prototype.trim` (also at createcar.tsx:38-43, topcar.tsx:156-157 and analizarimg.tsx:46): never longer than its input, and neither end of the result is white space. `TrimIsTrimmedSlice`, `TrimFixedPoint`, `TrimIdempotent` and `TrimEmptyIffAllWhite` carry its other properties. |
| Js.TrimStart | frontend_webapp/src/containers/createcar.tsx:61 | only leading white space is dropped, and the result starts with a non-white character or is empty |
| Js.TrimStartIsSuffix | frontend_webapp/src/containers/createcar.tsx:61 | `TrimStart` returns a suffix of its input |
| Js.TrimEnd | frontend_webapp/src/containers/createcar.tsx:61 | the result is a prefix of the input, only trailing white space is dropped, and the result ends non-white or is empty |
| Js.TrimIsSlice | frontend_webapp/src/containers/createcar.tsx:61-62 | `trim` returns the contiguous slice that starts where the leading white space ends |
| Js.TrimDropsWhite | frontend_webapp/src/containers/createcar.tsx:61-62 | every character `trim` drops, before or after the kept slice, is white space |
| Js.TrimIsTrimmedSlice | frontend_webapp/src/containers/createcar.tsx:61-62 | `trim` returns a trimmed slice of its input, and only white space is dropped |
| Js.TrimFixedPoint | frontend_webapp/src/containers/analizarimg.tsx:46 | `trim(s) == s` exactly when neither end of `s` is white space |
| Js.TrimIdempotent | frontend_webapp/src/containers/analizarimg.tsx:46 | trimming twice equals trimming once |
| Js.TrimEmptyIffAllWhite | frontend_webapp/src/containers/createcar.tsx:38 | a text is blank after `trim` exactly when every character is white space |
| Forms.SetField | frontend_webapp/src/containers/createcar.tsx:32-35 | the named field takes the value, the other two keep theirs, and an unknown name leaves the draft observably unchanged |
| Forms.SetFieldLaws | frontend_webapp/src/containers/topcar.tsx:124-127 | writing back a field's own value is a no-op; a second write to a field overrides the first |
| Forms.ToPayload | frontend_webapp/src/containers/createcar.tsx:60-64 | brand and mileage are the trimmed draft strings (trimmed at both ends), and the price is `Number` of the price text |
| TopCar.ToVehicle | frontend_webapp/src/containers/topcar.tsx:63-68 | one element of the array: `id = idvehiculo`, brand and mileage copied, and the price is `Number(precio)` (numbers kept as they are) |
| TopCar.HasList | frontend_webapp/src/containers/topcar.tsx:72-73 | `Array.isArray((data as any)[key])`: the key is present and holds an array. It is a definition with no contract; `VehiclesWrapperIsTransparent`, `DataWrapperIsTransparent` and `NestedWrapperIsEmpty` state its effect. |
| TopCar.NormalizeResponse | frontend_webapp/src/containers/topcar.tsx:60-77 | a bare array maps element by element in order:<br>`id = idvehiculo`; brand and mileage copied; the price is `Number(precio)`, so a numeric price is kept, a string price goes to `Number`, a missing one is NaN, null is 0 and a boolean 0 or 1.<br>A primitive or null gives []. An object with no array under `vehicles` or `data` gives []. |
| TopCar.VehiclesWrapperIsTransparent | frontend_webapp/src/containers/topcar.tsx:70-74 | `{vehicles: A}` normalises exactly as `A`, whatever else the object holds (so `vehicles` wins over `data`) |
| TopCar.DataWrapperIsTransparent | frontend_webapp/src/containers/topcar.tsx:70-74 | `{data: A}` normalises exactly as `A` when `vehicles` is not an array |
| TopCar.EnvelopesAgree | frontend_webapp/src/containers/topcar.tsx:60-74 | the bare array and its two wrappers give the same list |
| TopCar.NestedWrapperIsEmpty | frontend_webapp/src/containers/topcar.tsx:70-76 | unwrapping goes one level only: a wrapper around a wrapper normalises to [] |
| TopCar.ApplyEdit | frontend_webapp/src/containers/topcar.tsx:162-166 | same length and ids; rows with the edited id take the payload's brand, mileage and price; every other row is unchanged |
| TopCar.ApplyEditIdempotent | frontend_webapp/src/containers/topcar.tsx:162-166 | applying the same saved edit twice equals applying it once |
| TopCar.Without | frontend_webapp/src/containers/topcar.tsx:193 | a row remains exactly when it was there and has another id; never longer; a list without the id is returned as it is |
| TopCar.WithoutAppend | frontend_webapp/src/containers/topcar.tsx:193 | the filter distributes over concatenation, so the remaining rows keep their order |
| TopCar.WithoutIdempotent | frontend_webapp/src/containers/topcar.tsx:193 | deleting an id twice equals deleting it once |
| TopCar.Toggle | frontend_webapp/src/containers/topcar.tsx:97-104 | the id's membership flips and every other id's membership is unchanged |
| TopCar.ToggleTwice | frontend_webapp/src/containers/topcar.tsx:97-104 | toggling the same id twice restores the expanded set |
| TopCar.TopCarContainer.constructor | frontend_webapp/src/containers/topcar.tsx:31-53 | the initial value of every state cell; `loading` starts true |
| TopCar.TopCarContainer.VehiclesToShow | frontend_webapp/src/containers/topcar.tsx:210 | all vehicles when "see all" is on; otherwise the first min(6, n) vehicles, as a prefix |
| TopCar.TopCarContainer.SetShowAllVehicles | frontend_webapp/src/containers/topcar.tsx:362-366 | the "see all" / "see less" buttons set the flag and nothing else |
| TopCar.TopCarContainer.BeginFetch | frontend_webapp/src/containers/topcar.tsx:79-82 | the spinner is up and the error cleared; the rows are not touched |
| TopCar.TopCarContainer.FinishFetch | frontend_webapp/src/containers/topcar.tsx:83-94 | a non-empty normalised list replaces the rows. A thrown error, a non-ok status or an empty list each set their message and keep the previous rows. `loading` ends false in every outcome. |
| TopCar.TopCarContainer.ToggleVehicleDetails | frontend_webapp/src/containers/topcar.tsx:97-104 | the expanded set becomes `Toggle` of the old one; nothing else changes |
| TopCar.TopCarContainer.StartEdit | frontend_webapp/src/containers/topcar.tsx:107-116 | the row enters edit mode with a draft copied from it (price as `String(precio)`), and both save messages are cleared |
| TopCar.TopCarContainer.CancelEdit | frontend_webapp/src/containers/topcar.tsx:118-122 | edit mode ends and both save messages are cleared; the draft and the rows stay |
| TopCar.TopCarContainer.OnEditChange | frontend_webapp/src/containers/topcar.tsx:124-127 | the draft becomes `SetField` of the old draft |
| TopCar.TopCarContainer.BeginSaveEdit | frontend_webapp/src/containers/topcar.tsx:149-160 | with no row in edit mode, nothing changes and nothing is sent. A NaN price sets the price message, sends nothing and ends with `saving` false. Otherwise the PUT for the edited row is sent with the trimmed payload. Rows and edit mode are never touched here. |
| TopCar.TopCarContainer.FinishSaveEdit | frontend_webapp/src/containers/topcar.tsx:161-173 | on success the rows become `ApplyEdit` for the request's id, edit mode ends and the ok message shows. On failure the rows and edit mode stay and the error shows. `saving` ends false. |
| TopCar.TopCarContainer.BeginDelete | frontend_webapp/src/containers/topcar.tsx:178-183 | a declined confirmation changes nothing and sends nothing; otherwise the messages are cleared and `deletingId` is the id. It returns the `editingId` the handler captured, for the step after the response. |
| TopCar.TopCarContainer.FinishDelete | frontend_webapp/src/containers/topcar.tsx:184-206 | on success the rows become `Without` the id, and the id leaves the expanded set. Edit mode ends only if it was on that id when the handler was called (the value `BeginDelete` returns). On failure only the error changes. `deletingId` ends null. |
| CreateCar.Blank | frontend_webapp/src/containers/createcar.tsx:38 | `!s.trim()` holds exactly when every character of `s` is white space |
| CreateCar.NumericText | frontend_webapp/src/containers/createcar.tsx:39-43 | the price and mileage rule: not empty after `trim` and not NaN, that is, some character is not white space and `Number(s)` is not NaN |
| CreateCar.Validate | frontend_webapp/src/containers/createcar.tsx:37-47 | the brand is checked first, then the price, then the mileage, and the first failing message is returned. The result is `None` exactly when all three pass. |
| CreateCar.BrandCheckedFirst | frontend_webapp/src/containers/createcar.tsx:38 | with a blank brand the result is the same whatever the price and mileage hold |
| CreateCar.MileageCheckedLast | frontend_webapp/src/containers/createcar.tsx:38-45 | while the brand or the price fails, the mileage has no effect on the result |
| CreateCar.ValidFormGivesNumericPayload | frontend_webapp/src/containers/createcar.tsx:54-64 | a form that passes validation yields a payload with a non-empty, trimmed brand, a non-empty mileage and a non-NaN price |
| CreateCar.CreatedCar.constructor | frontend_webapp/src/containers/createcar.tsx:22-30 | the empty form and no messages |
| CreateCar.CreatedCar.OnChange | frontend_webapp/src/containers/createcar.tsx:32-35 | the form becomes `SetField` of the old form; nothing else changes |
| CreateCar.CreatedCar.BeginSubmit | frontend_webapp/src/containers/createcar.tsx:49-67 | both messages are cleared, and the form is never touched. A failing validation sets its message and sends nothing. A passing one sends `ToPayload` of the form and raises `submitting`. |
| CreateCar.CreatedCar.FinishSubmit | frontend_webapp/src/containers/createcar.tsx:66-95 | on success: the ok message shows, the form resets to empty strings, and `onCreated` receives the parsed body (null when the body is not JSON). On failure only the error changes and there is no callback. `submitting` ends false. |
| ImageAnalysis.Clean | frontend_webapp/src/containers/analizarimg.tsx:46 | the global replace of "```json" or "```" by "" followed by `trim`: the result holds no "```" and has no white space at either end. `CleanFixedPoints`, `CleanIdempotent` and `CleansJsonBlock` carry its other properties. |
| ImageAnalysis.RemoveFences | frontend_webapp/src/containers/analizarimg.tsx:46 | the left-to-right global removal of "```json" (tried first) and "```"; never longer than its input |
| ImageAnalysis.KeepsPlainHead | frontend_webapp/src/containers/analizarimg.tsx:46 | a leading character that is not a backtick is kept |
| ImageAnalysis.NoLeadingPair | frontend_webapp/src/containers/analizarimg.tsx:46 | a text not starting with two backticks cleans to one that does not either |
| ImageAnalysis.ConsFenceFree | frontend_webapp/src/containers/analizarimg.tsx:46 | a character prepended to a fence-free text keeps it fence-free unless it completes a "```" |
| ImageAnalysis.RemovesEveryFence | frontend_webapp/src/containers/analizarimg.tsx:46 | after removal no "```" is left anywhere, including where a removal joins backticks |
| ImageAnalysis.SliceFenceFree | frontend_webapp/src/containers/analizarimg.tsx:46 | a slice of a fence-free text is fence-free |
| ImageAnalysis.FenceFreeIsUnchanged | frontend_webapp/src/containers/analizarimg.tsx:46 | fence removal leaves a fence-free text as it is |
| ImageAnalysis.CleanFixedPoints | frontend_webapp/src/containers/analizarimg.tsx:46 | cleaning leaves `t` as it is exactly when `t` is fence-free and trimmed |
| ImageAnalysis.CleanIdempotent | frontend_webapp/src/containers/analizarimg.tsx:46 | cleaning a cleaned text changes nothing |
| ImageAnalysis.DropsLeadingJsonFence | frontend_webapp/src/containers/analizarimg.tsx:46 | a leading "```json" is dropped and the scan goes on after it |
| ImageAnalysis.PlainPrefixKept | frontend_webapp/src/containers/analizarimg.tsx:46 | a backtick-free text followed by "```" loses only the fence |
| ImageAnalysis.UnwrapsJsonBlock | frontend_webapp/src/containers/analizarimg.tsx:45-46 | "```json" + x + "```" with a backtick-free x comes out of fence removal as x |
| ImageAnalysis.CleansJsonBlock | frontend_webapp/src/containers/analizarimg.tsx:45-46 | such a block cleans to `trim(x)` |
| ImageAnalysis.NewlinesTrimmed | frontend_webapp/src/containers/analizarimg.tsx:46 | a trimmed, non-empty text between two newlines trims back to itself |
| ImageAnalysis.CleansNewlineFencedBlock | frontend_webapp/src/containers/analizarimg.tsx:45-46 | "```json\n" + d + "\n```" cleans to d for a trimmed, non-empty, backtick-free document d |
| ImageAnalysis.Resultado | frontend_webapp/src/containers/analizarimg.tsx:35-41 | `response.json()`, then the `ok` check, then `data.resultado`. There is a value only for an answered, ok, JSON body. It is absent exactly when the fetch threw, the status was not ok, the body was not JSON, or the body was null or undefined. For an object body it is the `resultado` field. |
| ImageAnalysis.Interpret | frontend_webapp/src/containers/analizarimg.tsx:35-58 | the outcome fails exactly when there is no `resultado` (covering a thrown fetch, a non-JSON body, a non-ok status or a null body). A raw text is the original string, and only when its cleaned form does not parse. A parsed value is the parse of the cleaned string, or the non-string `resultado` as it is. |
| ImageAnalysis.FailuresAreGeneric | frontend_webapp/src/containers/analizarimg.tsx:35-58 | a thrown fetch, a non-ok status or a non-JSON body always ends in the generic failure, whatever `detalle` says |
| ImageAnalysis.AnalizarImg.constructor | frontend_webapp/src/containers/analizarimg.tsx:4-8 | no file, not loading, no results, no error |
| ImageAnalysis.AnalizarImg.HandleFileChange | frontend_webapp/src/containers/analizarimg.tsx:10-14 | the first chosen file replaces the current one; an empty choice keeps it |
| ImageAnalysis.AnalizarImg.BeginUpload | frontend_webapp/src/containers/analizarimg.tsx:16-24 | without a file only the error is set and nothing is sent. Otherwise the error and both results are cleared and `loading` is true. |
| ImageAnalysis.AnalizarImg.FinishUpload | frontend_webapp/src/containers/analizarimg.tsx:35-61 | exactly one of the generic error, the parsed result and the raw text is written, as `Interpret` decides. At most one result is set afterwards. `loading` ends false. |

## Left out

- HTTP: the `fetch` calls, URLs, headers, request bodies and status texts. Each response is an outcome parameter of the `Finish…` method, and an HTTP error message is any `Failure`.
- `Number(string)`, `String(number)` and `JSON.parse` are uninterpreted `Runtime` parameters, so the rule that `Number("")` is 0 is not encoded.
- An empty price draft: `saveEdit` in `topcar.tsx` does not reject it, while `createcar.tsx` checks for a blank price first. The model keeps this difference as the code has it.
- Elements of the list response that are not records (where JS would read `undefined` or throw on `null`). The elements have the declared `ApiVehicle` type, and only the envelope shape and the type of `precio` are dynamic.
- TopCar.NormalizeResponse: a `precio` that is an object or an array (`Number([5])` is 5) is outside the `Scalar` type, so the model does not cover it.
- Js.Get: covers only keys that are neither array indices nor builtin property names, which are the only kind the components read.
- Strings are sequences of Dafny characters (Unicode scalar values rather than UTF-16 code units).
- The `Intl.NumberFormat` currency formatting, the image `onError` fallback, the `estado` CSS slug, and all JSX and CSS: rendering only.
- `console.error` logging: output only.
- `onCreated` being absent or throwing: the model returns the value the callback would receive.
- Asynchrony: each handler is two atomic steps, and no interleaving of overlapping clicks is modelled. The `disabled` button guards are not modelled either.
- `serachs.tsx`, `header.tsx`, `homepage.tsx` and `App.tsx`: request plumbing, DOM theme toggling, composition and a timer. They are not part of this model.
