# TensorZero UI: input resolver and tags-table navigation, in Dafny

This project models two pieces of the TensorZero UI and proves properties of them.

**The input resolver** (`ui/app/utils/resolve.server.ts`) runs on the server before a stored
input is rendered. An input holds messages, a message holds content items, and each item is
one of the kinds `text`, `tool_call`, `tool_result`, `raw_text` or `image`. Resolution maps
over this tree and keeps its structure. Every kind except `image` passes through. An `image`
item names a blob in the object store. The resolver fetches that blob and parses it as JSON.
It then replaces the item's `image` field with `{url: "data:<mime>;base64,<data>", mime_type}`.
If the fetch or the parse fails, the item becomes `{type: "image_error", error}` instead.
The error never escapes that item. A second entry path, for stored model-inference inputs,
rewrites `{type: "text", text}` items into `{type: "text", value}`.

**The tags table** (`ui/app/components/utils/TagsTable.tsx`) lists an inference's tags.
Rows whose key is navigable are styled as clickable. Clicking such a row navigates to the
evaluation, dataset, datapoint or inference that the tag names.

Files:
- `wrappers.dfy`: `Option` and `Result`. A `Result` is `Ok` with a value, or `Err` with the message of a thrown error.
- `resolve.dfy`: module `Resolve`. It holds the content, message and input datatypes and all
  nine resolver functions. The two collaborators, the object store's `getObject` and
  `JSON.parse`, are the function-valued fields of an `Env` value. Each returns a `Result`.
- `tags_table.dfy`: module `TagsTable`. It holds the navigable-key rule, the click routing and the rendered body.

One `Content` datatype covers every item shape the resolver reads or writes. Predicates say
which shapes a position may hold:
- `IsInputContent` for an `Input`;
- `IsModelInferenceContent` for a `ModelInferenceInput`, whose text items are `{type, text}`;
- `IsResolvedContent` for a `ResolvedInput`, where every image has a URL or has become an `image_error`.

`Promise.all(xs.map(f))` is modelled as a sequential map that keeps the order of `xs`.

## Model

| member | source | states |
|---|---|---|
| `Resolve.ResolveImage` | ui/app/utils/resolve.server.ts:132-142 | A failing fetch gives the fetch's error. A failing parse gives the parse's error. Otherwise the result keeps the declared MIME type and its URL is the data URL of the parsed `data` field. It succeeds exactly when both the fetch and the parse succeed. |
| `Resolve.DataUrlRoundTrip` | ui/app/utils/resolve.server.ts:137 | The URL has the fixed format `data:<mime>;base64,<data>`. Parsing it back gives the declared MIME type and the payload, provided the MIME type has no parameters. |
| `Resolve.DataUrlInjective` | ui/app/utils/resolve.server.ts:137 | Two data URLs are equal only when their MIME types and payloads are equal, provided neither MIME type contains `;`. |
| `Resolve.ResolveContent` | ui/app/utils/resolve.server.ts:81-103 | Items of kind text, tool_call, tool_result and raw_text come back exactly as given. An image item stays an image with the same storage path and the resolved image field exactly when `resolveImage` succeeds. When `resolveImage` fails, for a fetch or a parse failure alike, the item becomes `image_error` carrying the failure's message. An item of input shape always gives an item of resolved shape. |
| `Resolve.ResolveContents` | ui/app/utils/resolve.server.ts:56-60 | The result has the same length as the items. Result item j is the resolution of input item j, so an empty list gives an empty list. |
| `Resolve.ResolveMessage` | ui/app/utils/resolve.server.ts:53-65 | The role, which stands for every field other than `content`, is copied. The content keeps its length and is resolved item by item. A message of input shape gives one of resolved shape. |
| `Resolve.ResolveMessages` | ui/app/utils/resolve.server.ts:34-42 | The result has the same length as the messages. Result message i is the resolution of message i, so an empty list gives an empty list. |
| `Resolve.ResolveInput` | ui/app/utils/resolve.server.ts:16-22 | Every field other than `messages` is copied. The messages keep their count and are resolved one by one. An `Input` gives a resolved input. |
| `Resolve.ResolveModelInferenceContent` | ui/app/utils/resolve.server.ts:105-131 | A `{type, text}` item becomes `Text(text)`. Every other kind is resolved exactly as `ResolveContent` resolves it. The result always has resolved shape. |
| `Resolve.ResolveModelInferenceContents` | ui/app/utils/resolve.server.ts:70-74 | The result has the same length as the items. Result item j is the model-inference resolution of input item j. |
| `Resolve.ResolveModelInferenceMessage` | ui/app/utils/resolve.server.ts:67-79 | The role is copied. The content keeps its length and is resolved item by item on the model-inference path. The result has resolved shape. |
| `Resolve.ResolveModelInferenceMessages` | ui/app/utils/resolve.server.ts:44-52 | The result has the same length as the messages. Result message i is the model-inference resolution of message i. |
| `Resolve.ResolveModelInferenceInput` | ui/app/utils/resolve.server.ts:24-32 | This is the code as written. Non-message fields are copied and the message count is kept. The result equals `ResolveInput` of the same value, because line 27 calls `resolveMessages`. |
| `Resolve.AsWrittenResolvedIffNoTextField` | ui/app/utils/resolve.server.ts:24-32 | On the code as written, a model-inference input resolves to a resolved-shape input exactly when it holds no `{type, text}` item. |
| `Resolve.TextNotRewrittenAsWritten` | ui/app/utils/resolve.server.ts:27 | Take one message with the item `{type: "text", text: "hello"}`. The as-written entry point returns that item unchanged, and its result is not a resolved input. The corrected entry point returns `{type: "text", value: "hello"}`. |
| `Resolve.ResolveModelInferenceInputIntended` | ui/app/utils/resolve.server.ts:24-32 | This is the corrected version, which resolves through `resolveModelInferenceMessages` (lines 44-52). Non-message fields are copied and messages are resolved one by one on the model-inference path. The result always has resolved shape. |
| `Resolve.SiblingsResolveIndependently` | ui/app/utils/resolve.server.ts:56-60 | Replacing one item of a message leaves the resolution of every other item unchanged. |
| `Resolve.StoreFailureIsContained` | ui/app/utils/resolve.server.ts:90-101 | Take a store that answers differently only at path p. Only items that reference p resolve differently. If that store fails at p, each such item becomes `image_error` with the store's message, and the list keeps its length. |
| `Resolve.MessagePathsAgree` | ui/app/utils/resolve.server.ts:53-131 | Take a message with no `{type, text}` item. Both message paths then give the same result, so images and the other kinds are resolved identically on both. |
| `Resolve.EntryPointsAgreeWithoutTextField` | ui/app/utils/resolve.server.ts:24-52 | The as-written and the corrected model-inference entry points give the same result on every input without `{type, text}` items. |
| `Resolve.ImageExamples` | ui/app/utils/resolve.server.ts:90-101 | Take a PNG item whose blob parses to `data = "QUJD"`. It resolves to the URL `data:image/png;base64,QUJD`. If the store fails with "not found", it resolves to `image_error` "not found". If the payload does not parse, it resolves to `image_error` with the parser's message. |
| `TagsTable.NavigableKeys` | ui/app/components/utils/TagsTable.tsx:21-34 | The key list starts with the three fixed keys and has no duplicates. A key is in it exactly when `IsNavigable` holds: evaluation_run_id only with a non-empty evaluation_name tag, and datapoint_id only with a non-empty dataset_name tag. |
| `TagsTable.NavTarget` | ui/app/components/utils/TagsTable.tsx:37-71 | A click navigates exactly when the key is navigable. So a non-navigable key never navigates, and the two "guaranteed to be present" guards never fire for a navigable key. |
| `TagsTable.Routes` | ui/app/components/utils/TagsTable.tsx:40-68 | Gives the route for each of the five keys. A run id or datapoint id without its companion tag gives no navigation. |
| `TagsTable.TableBody` | ui/app/components/utils/TagsTable.tsx:82-103 | The empty state "No tags found" is shown exactly when there are no tags, and then there are no rows. Otherwise there is one row per tag, in entry order. A row is clickable exactly when its key is navigable. Clicking it gives `NavTarget` of its key and value, which navigates exactly when the row is clickable. |
| `TagsTable.EntriesCount` | ui/app/components/utils/TagsTable.tsx:82-85 | `Object.entries` of the tags has exactly as many entries as there are tags. |

## Left out

- Network and object-store I/O. `tensorZeroClient.getObject` is the `getObject` field of `Env`. It is any total function from storage path to a string or an error message.
- JSON. `JSON.parse` together with the read of `.data` is the `parseJson` field of `Env`. It gives the template-literal rendering of `data`, or an error message. A `null` document, where reading `.data` throws, counts as a parse failure. JSON grammar and base64 validity are not modelled, because the code checks neither.
- Error messages. `error instanceof Error ? error.message : String(error)` is reduced to the single message string in `Err`.
- Concurrency. `Promise.all` and async scheduling are modelled as an order-preserving sequential map. Nothing shared is mutated, so completion order has no other effect.
- Fields of items and messages. The fields of tool calls, tool results and the input's `system` are plain strings. A message's fields other than `content` are represented by `role`.
- Item tags outside the switch. `resolveContent` requires an item whose `type` is one of the five `switch` cases. For any other tag the JavaScript function returns `undefined`, which the model does not represent. `resolveModelInferenceContent` requires the model-inference shape. On a `{type, value}` text item it would produce `value: undefined`.
- Resolve.DataUrlRoundTrip: assumes a MIME type without `;` parameters. With parameters, the first `;` no longer ends the media type.
- Resolve.DataUrlInjective: holds only for MIME types without `;`. Otherwise `DataUrl("a;base64,b", "c")` and `DataUrl("a", "b;base64,c")` are the same string.
- Route encoding. Routes are plain concatenation, as in the source. No URL encoding is applied to tag values.
- Rendering. All JSX, React rendering, the Tailwind class strings, `useNavigate` and `InferencesTable.tsx` are left out. A click's effect is the route it navigates to, or `None` for no navigation. Row order is the order of `Object.entries`, which the caller supplies.

## Findings

| source | as written | input that shows it | evidently intended | confidence | as-written member | corrected member |
|---|---|---|---|---|---|---|
| ui/app/utils/resolve.server.ts:27 | `resolveModelInferenceInput` resolves its messages with `resolveMessages`, the `Input` path. Its `{type: "text", text}` items therefore pass through unchanged into a `ResolvedInput`, which expects `{type: "text", value}`. | A model-inference input with one message holding `{type: "text", text: "hello"}` | Call `resolveModelInferenceMessages` (lines 44-52), so that text items become `{type: "text", value: "hello"}` | medium; not executed | `Resolve.ResolveModelInferenceInput`, `Resolve.TextNotRewrittenAsWritten` | `Resolve.ResolveModelInferenceInputIntended` |
