# Soul ID Card generator: a Dafny model of the Generator component

The Soul ID Card front end lets a user fill in five fields for a fictional
agent: name, type, serial, a short "soul text" and a theme colour. A live ID
card updates from these fields. The user can then do one of two things:

- download the card as a PNG file;
- publish it. Publishing uploads the PNG to the `cards` storage bucket,
  resolves its public URL and inserts a row into the `agents` table.

This project models the `Generator` component that holds this logic. It
covers the form state, the preset palette, the two busy flags that disable
both action buttons, and the download and publish handlers.

Every outside collaborator is replaced by the outcome it delivers, passed in
as a parameter:

- html2canvas: `CaptureOutcome`;
- `canvas.toBlob`: a blob, a null blob, or a synchronous throw;
- `crypto.randomUUID`: the UUID string;
- the storage upload: `UploadReply`;
- `getPublicUrl`: the URL string;
- the `insert().select().single()` call: `InsertReply`;
- whether the card element is mounted (`cardRef.current`): a boolean.

What the handlers do is recorded in a ghost `trace` of effects: `Capture`,
`Encode`, `Upload(path, reply)`, `ResolveUrl(path, url)`, `Insert(record)`,
`Download(fileName)` and `Alert(notice)`.

Files:

- `card.dfy` (module `Card`): the card data, the default values, the six
  presets, the "selected preset" test and the `agents` record.
- `naming.dfy` (module `Naming`): the download file name and the storage
  object path.
- `pipeline.dfy` (module `Pipeline`): the collaborator outcomes and the
  effects of each action as functions. It also holds the lemmas on ordering,
  abort-on-failure and field mapping. Its trace invariant `InsertsBacked`
  says that every inserted record comes right after a successful upload
  (reply `UploadOk`) of an object and the resolution of that object's URL,
  and that the record's `image_url` is that URL.
- `generator.dfy` (module `SoulGenerator`): class `Generator`. It has the five
  fields, `isGenerating`, `isPublishing`, the pending `toBlob` callbacks, the
  setters, the two handlers and the two button clicks. Each method is proved
  against the functions in `Pipeline` and `Naming`.

The download handler has a quirk that the model keeps. Its `throw` on a
missing blob is inside the `toBlob` callback, so the handler's `catch` never
sees it. The `finally` also clears `isGenerating` before that callback runs.
`HandleDownload` therefore only schedules the save, recorded in
`pendingSaves`, and clears the flag. `CompleteSave` runs the callback later.
If that callback gets no blob, it saves nothing and shows no notice.

The model keeps two further behaviours of the code:

- the serial goes into both names verbatim, without sanitising;
- a null blob during download produces no notice.

## Model

| member | source | states |
|---|---|---|
| `Card.DefaultCard` | components/soul/Generator.tsx:21-25 | The mount-time form values: the serial is non-empty and the theme colour is the first preset (Cyan). |
| `Card.IsPresetSelected` | components/soul/Generator.tsx:231 | A preset button is drawn as selected exactly when the theme colour equals its value. |
| `Card.PresetSelectionUnique` | components/soul/Generator.tsx:225-234 | The six preset values are pairwise distinct, so at most one preset button is ever drawn as selected. |
| `Card.AgentRecordOf` | components/soul/Generator.tsx:119-126 | The inserted record loses no form field: name, model, serial_number, soul_text and theme_color read back as name, type, serial, soulText and themeColor, and image_url is the resolved URL. |
| `Naming.SerialOrUnnamed` | components/soul/Generator.tsx:55 | `serial \|\| "unnamed"`: never empty; a non-empty serial is kept verbatim; only the empty serial becomes "unnamed". |
| `Naming.DownloadFileName` | components/soul/Generator.tsx:55 | The name starts with `soul-id-card-` and ends with `.png`, and the part between them is the serial verbatim (or "unnamed"). An empty serial gives exactly `soul-id-card-unnamed.png`. |
| `Naming.DownloadFileNameCollisions` | components/soul/Generator.tsx:55 | Two serials give the same file name iff they are equal, or one is empty and the other is literally "unnamed". |
| `Naming.UploadPath` | components/soul/Generator.tsx:96-97 | The path is `public/`, the UUID, `-`, the serial verbatim (no "unnamed" fallback), then `.png`. Each part can be read back at its position. |
| `Naming.UploadPathInjective` | components/soul/Generator.tsx:96-97 | For UUIDs of equal length, two paths are equal iff both the UUIDs and the serials are equal. |
| `Naming.DistinctUuidsDistinctPaths` | components/soul/Generator.tsx:96-105 | Two different UUIDs never produce the same object path, whatever the serials, so the UUID alone keeps uploads under `upsert: false` from colliding. |
| `Pipeline.FailureMessage` | components/soul/Generator.tsx:90-140 | The failure notice's message: a store error keeps the store's message verbatim behind `Upload failed: ` or `Database insert failed: `; a capture or encode throw keeps its own message; a null blob gives `Failed to generate image blob`. |
| `Pipeline.PublishEffects` | components/soul/Generator.tsx:74-140 | A publish starts with the capture and shows exactly one notice, as its last effect. |
| `Pipeline.PublishIsPrefixThenNotice` | components/soul/Generator.tsx:74-140 | A publish runs capture, encode, upload, URL resolution and insert in order and stops right after the first failing step (a null blob or a throwing `toBlob` both stop at encode). It then shows one notice, which names that failure or reports success. |
| `Pipeline.PublishSucceedsIffInserted` | components/soul/Generator.tsx:117-135 | The success notice with id `id` and URL `url` appears iff capture, blob and upload all succeeded, the insert returned row `id`, and `url` is the resolved public URL. |
| `Pipeline.UploadErrorAbortsPublish` | components/soul/Generator.tsx:99-109 | After an upload error, no URL is resolved and nothing is inserted. The failure notice carries the store's message behind `Upload failed: `. |
| `Pipeline.PublishRecordMapping` | components/soul/Generator.tsx:96-126 | A record is inserted only after capture, blob and upload succeeded. The same path went to the upload, which succeeded, and to `getPublicUrl`. The record maps name, type→model, serial→serial_number, soulText→soul_text, themeColor→theme_color and the resolved URL→image_url. |
| `Pipeline.DownloadEffects` | components/soul/Generator.tsx:36-67 | A download starts with its single capture; `toBlob` is called once iff the capture succeeded; the download notice is shown at most once, iff the capture or the `toBlob` call threw inside the handler, and then as the last effect; nothing else happens. |
| `Pipeline.SaveEffects` | components/soul/Generator.tsx:48-61 | The `toBlob` callback saves the file under its name, once, iff a blob was produced, and shows no notice either way. |
| `Pipeline.InsertsBackedAppend` | components/soul/Generator.tsx:99-126 | The "every insert follows the successful upload and URL resolution it points at" invariant survives appending one action's effects to the trace. |
| `Pipeline.PublishEffectsBacked` | components/soul/Generator.tsx:99-126 | A single publish satisfies that invariant: its record's image URL was resolved from the path successfully uploaded just before. |
| `Pipeline.DownloadEffectsBacked` | components/soul/Generator.tsx:36-67 | A download inserts no record, so it keeps that invariant. |
| `Pipeline.SaveEffectsBacked` | components/soul/Generator.tsx:48-61 | Nor does its save callback. |
| `SoulGenerator.Generator.constructor` | components/soul/Generator.tsx:21-29 | The form starts with the default values, Cyan selected, both flags cleared, and nothing pending or recorded. |
| `SoulGenerator.Generator.TriggersDisabled` | components/soul/Generator.tsx:271-283 | The `disabled` attribute of both action buttons: the download button's `isGenerating \|\| isPublishing` at :271 and the publish button's `isPublishing \|\| isGenerating` at :283 are the same disjunction. What it means, that a click on a disabled button changes nothing, is stated by `ClickDownload` and `ClickPublish`. |
| `SoulGenerator.Generator.SetName` | components/soul/Generator.tsx:166 | Overwrites the name; every other field, both flags and the trace are unchanged. |
| `SoulGenerator.Generator.SetAgentType` | components/soul/Generator.tsx:181 | Overwrites the type; nothing else changes. |
| `SoulGenerator.Generator.SetSerial` | components/soul/Generator.tsx:196 | Overwrites the serial verbatim; nothing else changes. |
| `SoulGenerator.Generator.SetSoulText` | components/soul/Generator.tsx:210 | Overwrites the soul text; nothing else changes. |
| `SoulGenerator.Generator.SetThemeColor` | components/soul/Generator.tsx:250-263 | The colour picker and the text input accept any text; the last write wins. A preset is then drawn as selected iff its value equals that text. |
| `SoulGenerator.Generator.SelectPreset` | components/soul/Generator.tsx:225-234 | A preset click sets the theme colour to exactly that preset's value. Afterwards that preset, and no other, is drawn as selected. |
| `SoulGenerator.Generator.HandleDownload` | components/soul/Generator.tsx:33-68 | With no mounted card, nothing changes. Otherwise it captures and calls `toBlob`. If both return, it schedules the save under `DownloadFileName(serial)`; if either throws, it shows the download-failure notice. `isGenerating` is false afterwards, even while the save is still pending. |
| `SoulGenerator.Generator.CompleteSave` | components/soul/Generator.tsx:48-61 | The scheduled `toBlob` callback saves the file under its fixed name when a blob exists. With no blob it records nothing (the throw escapes the catch). Neither flag is touched. |
| `SoulGenerator.Generator.HandlePublish` | components/soul/Generator.tsx:71-144 | With no mounted card, nothing changes. Otherwise the trace grows by exactly `PublishEffects` of the form and the outcomes, and `isPublishing` is false afterwards whatever failed. The form and `isGenerating` are untouched. |
| `SoulGenerator.Generator.ClickDownload` | components/soul/Generator.tsx:269-271 | While `isGenerating \|\| isPublishing`, the click changes nothing. Otherwise it behaves as the download handler. |
| `SoulGenerator.Generator.ClickPublish` | components/soul/Generator.tsx:281-283 | While `isPublishing \|\| isGenerating`, the click changes nothing. Otherwise it behaves as the publish handler. |

## Left out

- Pixel output of html2canvas and the PNG bytes of `toBlob`: these are foreign browser and library code. Each appears only as an outcome and an effect token.
- `URL.createObjectURL`, the anchor click and `URL.revokeObjectURL`: these are the browser's save mechanism. They are one `Download(fileName)` effect.
- The Supabase client and its network calls: these are I/O through a client outside this model. Their replies are parameters. An upload collision under `upsert: false` is one more `UploadError`.
- UUID uniqueness: `crypto.randomUUID` is a random source. The UUID is an input, and only its 36-character length is assumed (`IsUuid`).
- The Korean text of the notices and the console logging: notices are modelled by kind and payload. Only the `Upload failed: ` / `Database insert failed: ` prefixes and the blob error text are kept (`Pipeline.FailureMessage`).
- A thrown value that is not an `Error` (the "unknown error" notice text): html2canvas is taken to throw an `Error` with a message.
- Async interleaving and React re-rendering: each handler runs to completion as one method. The busy flags are therefore only set inside a handler, and the inert branch of `ClickDownload` and `ClickPublish` describes a click that arrives while another handler is in flight. Edits made while a handler is in flight, which the handler's closure would not see, are not modelled.
- components/soul/IDCard.tsx, app/page.tsx, lib/supabase.ts and lib/types.ts: presentation markup, page chrome, client configuration and type shapes. They are not part of this model. The `Agent` columns that the insert writes appear as `Card.AgentRecord`.
