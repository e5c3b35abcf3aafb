# Behance source plugin: shape normalizer and rate limiter

This project models two pieces of the Gatsby source plugin for Behance
(`src/gatsby-node.js`). It proves properties of both models in Dafny.

- **The shape normalizer** (`dict`, `transformImage`, `transformProject`),
  in module `Normalizer` (`normalizer.dfy`). The Behance API returns
  mappings whose keys are numerals: an image's `sizes` and `dimensions`, a
  project's `covers`, each owner's `images`. The normalizer renames every key
  `K` of these mappings to `"size_" + K` and keeps the values. It does this
  for the project itself, for every owner, for every `image` module and for
  every component of a `media_collection` module. Any other module passes
  through untouched.
  - Objects are records of the fields the normalizer touches, plus a `rest`
    mapping that holds all their other fields.
  - Modules are a datatype with `ImageModule`, `MediaCollection` and `Other`
    arms.
  - The functions that can throw return a `Result`: `Assign`, `Dict`,
    `RenameKeys`, `MapResults`, the transforms `TransformImage`,
    `TransformOwner`, `TransformModule` and `TransformProject`, their
    JSON-level counterparts (`NormalizeImage`, `NormalizeComponent`,
    `NormalizeModule`, `NormalizeMediaCollection`) and the decoders.
    `TypeError` stands for the exception the code raises. That is either
    `Object.assign()` given no target, which an empty numeral-keyed mapping
    leads to, or a read of a field that is missing or has the wrong shape.
  - A record is well formed (`WfImage`, `WfOwner`, `WfModule`, `WfProject`)
    when its `rest` does not repeat a field the record holds apart, and a
    module's arm agrees with its `type` field. `DecodeModule` classifies a
    JSON module object by `type`, as the code does. It builds the well-formed
    record that `ModuleFields` writes back to the same object, and
    `DecodeModuleFields` proves the converse.
  - The module branch of `transformProject` is also modelled directly on JSON
    objects. `NormalizeModule` tests `type` against "image" and
    "media_collection". `NormalizeModuleAgrees` proves that, on every object,
    this equals decoding the object, applying the record-level
    `TransformModule` and writing the result back.
  - `dict` is modelled as written. One one-entry object is built per entry
    (`EntryObjects`), and these are merged with `Object.assign` (`Assign`,
    `Merge`: left to right, later entries overwrite earlier ones). A lemma
    shows that for every order in which `Object.entries` may list a
    mapping's entries, this equals the map-level renaming `RenameKeys`.
- **The rate limiter** (`rateLimiter` and its captured `lastCalled`), in
  module `RateLimiting` (`rate_limiter.dfy`). It is a class `RateLimiter`
  with the field `lastCalled: Option<int>` (millisecond timestamps) and a
  method `Call(now)` that returns the wait and updates `lastCalled`. The
  clock reading `now` is a parameter. `Slots(last, times)` gives the instant
  at which each request of a sequence is let through. The lemmas about it
  cover:
  - the 500 ms spacing;
  - bursts, where the k-th request goes at `T + 500·k`;
  - requests already 500 ms apart, which are never delayed;
  - that the limiter's schedule is the earliest admissible one.

  `RunRequests` drives a fresh limiter, as one sourcing run does, and is
  proved to produce exactly those waits.

The code throws on an empty numeral-keyed mapping:
`Object.assign(...[])` has no target. On records, the transforms
`TransformImage`, `TransformOwner`, `TransformModule` and `TransformProject`
return `TypeError` exactly when a mapping they reach is empty, and each states
this as an if-and-only-if. The JSON-level functions (`NormalizeImage`,
`NormalizeComponent`, `NormalizeMediaCollection`, `NormalizeModule`) also
throw on a field that is missing or has the wrong shape, and each states its
exact success condition.

## Model

| member | source | states |
|---|---|---|
| `Normalizer.Renamed` | src/gatsby-node.js:5 | The result is a renaming of `m`: every entry `(k, v)` appears as `("size_" + k, v)`, and every key of the result is the prefixed form of a key of `m`. |
| `Normalizer.RenamingUnique` | src/gatsby-node.js:5 | Two renamings of the same mapping are equal, so the renaming specification determines the output completely. |
| `Normalizer.RenamingSize` | src/gatsby-node.js:5 | A renaming has exactly as many entries as the mapping it renames, because prefixing is injective. |
| `Normalizer.RenameKeys` | src/gatsby-node.js:5 | `dict(Object.entries(m))` on a whole mapping fails (TypeError) iff `m` is empty; otherwise it returns a renaming of `m` with the same number of entries. |
| `Normalizer.Merge` | src/gatsby-node.js:5 | Merging objects left to right gives the union of their keys, and each key gets its value from the last object that holds it (`Object.assign` semantics). |
| `Normalizer.Assign` | src/gatsby-node.js:5 | `Object.assign(...objs)` throws iff there are no objects; otherwise its keys are exactly the keys of the objects. |
| `Normalizer.EntryObjects` | src/gatsby-node.js:5 | Builds one single-entry object `{"size_" + k: v}` per entry, in order. It has no contract of its own; `MergeEntriesRenames` and `DictIsRenameKeys` give it its meaning. |
| `Normalizer.Dict` | src/gatsby-node.js:5 | `dict` of an entry list throws iff the list is empty. |
| `Normalizer.MergeEntriesRenames` | src/gatsby-node.js:5 | Merging the one-entry objects `{["size_" + k]: v}` of an enumeration of `m` gives a renaming of `m`. |
| `Normalizer.DictIsRenameKeys` | src/gatsby-node.js:5-11 | For every order in which `Object.entries` lists the entries of `m`, `dict` of that list equals `RenameKeys(m)`, including the failure on an empty mapping. |
| `Normalizer.TransformImage` | src/gatsby-node.js:8-12 | `transformImage` succeeds iff `sizes` and `dimensions` are both nonempty; it then renames both and leaves every other field unchanged. |
| `Normalizer.MapResults` | src/gatsby-node.js:18-26 | `xs.map(f)` with a throwing `f` succeeds iff `f` succeeds on every element; the result then has the same length, and each element is `f` of the input element at the same position. |
| `Normalizer.TransformOwner` | src/gatsby-node.js:18-21 | An owner is transformed iff its `images` mapping is nonempty; its `images` are renamed and every other field is kept. |
| `Normalizer.TransformModule` | src/gatsby-node.js:22-26 | An image module is normalized as an image. A media collection keeps its other fields, and its components keep their count and order, each normalized as an image. Any other module is returned unchanged. It fails iff some mapping it reaches is empty. |
| `Normalizer.TransformProject` | src/gatsby-node.js:15-27 | `transformProject` succeeds iff `covers`, every owner's `images` and every image mapping in the modules are nonempty. It then renames `covers`, maps owners and modules one for one in order (same lengths), and keeps every other field. |
| `Normalizer.ImageNormalizedUnique` | src/gatsby-node.js:8-12 | At most one image is a normalization of a given image. |
| `Normalizer.ModuleNormalizedUnique` | src/gatsby-node.js:22-26 | At most one module is a normalization of a given module. |
| `Normalizer.ProjectNormalizedUnique` | src/gatsby-node.js:15-27 | At most one project is a normalization of a given project, so the contract of `TransformProject` pins its output down completely. |
| `Normalizer.ProjectNormalizedSizes` | src/gatsby-node.js:17-21 | In a normalized project, `covers` and each owner's `images` have the same number of entries as before. |
| `Normalizer.NoImageModulesKept` | src/gatsby-node.js:22-26 | Take a project whose modules are all of other types, and whose covers and owner images are nonempty. It normalizes successfully, with the same modules and the same other fields. |
| `Normalizer.SizesExample` | src/gatsby-node.js:10 | `{"276": "u1", "max_1920": "u2"}` is renamed to `{"size_276": "u1", "size_max_1920": "u2"}`. |
| `Normalizer.DimensionsExample` | src/gatsby-node.js:11 | `{"276": d}` is renamed to `{"size_276": d}`. |
| `Normalizer.TransformImageExample` | src/gatsby-node.js:8-12 | The image with those `sizes` and `dimensions` normalizes to the renamed image, with its other fields unchanged. |
| `Normalizer.DecodeImage` | src/gatsby-node.js:8-12 | An image object is read as a record iff its `sizes` and `dimensions` are objects. The record is well formed and stands for exactly that object. |
| `Normalizer.DecodeComponent` | src/gatsby-node.js:24 | A component read as a record is well formed and stands for exactly the component. |
| `Normalizer.DecodeModule` | src/gatsby-node.js:22-26 | A module is classified by `type` as the code tests it. A decoded module is well formed, so its arm agrees with `type`, and it stands for exactly the object it came from. A module whose type is neither "image" nor "media_collection" is decoded as `Other` with all its fields. |
| `Normalizer.DecodeMediaCollection` | src/gatsby-node.js:24 | A media collection read as a record is a well-formed `MediaCollection` that stands for exactly that object. |
| `Normalizer.DecodeModuleFields` | src/gatsby-node.js:22-26 | Every well-formed module record is read back from the JSON object it stands for, so records and decodable objects correspond one to one. |
| `Normalizer.NormalizeImage` | src/gatsby-node.js:8-12 | `transformImage` on a JSON object succeeds iff `sizes` and `dimensions` are nonempty objects. It then keeps the key set and every other field, and renames both mappings. |
| `Normalizer.NormalizeComponent` | src/gatsby-node.js:24 | A component is transformed iff it is an object on which `transformImage` succeeds. The result is an object with the same keys. |
| `Normalizer.NormalizeModule` | src/gatsby-node.js:22-26 | A module whose `type` is neither "image" nor "media_collection" is returned unchanged. An "image" module is transformed iff its `sizes` and `dimensions` are nonempty objects. A "media_collection" module is transformed iff `components` is an array whose every component transforms. A transformed module keeps its key set and its type. |
| `Normalizer.NormalizeMediaCollection` | src/gatsby-node.js:24 | A media collection is transformed iff `components` is an array and every component transforms. Every other field is kept, and the components keep their count and order, each being the transformed input component. |
| `Normalizer.NormalizeImageAgrees` | src/gatsby-node.js:8-12 | `NormalizeImage` equals decoding, `TransformImage` and writing back, failures included. |
| `Normalizer.NormalizeComponentAgrees` | src/gatsby-node.js:24 | The same agreement for one media-collection component. |
| `Normalizer.NormalizeComponentsAgree` | src/gatsby-node.js:24 | The same agreement for a whole `components` array. |
| `Normalizer.MediaCollectionAgrees` | src/gatsby-node.js:24 | `NormalizeMediaCollection` equals decoding, `TransformModule` and writing back, failures included. |
| `Normalizer.NormalizeModuleAgrees` | src/gatsby-node.js:22-26 | On every JSON module object, the type-testing `NormalizeModule` equals decoding, `TransformModule` and writing back, failures included. |
| `Normalizer.WfModuleCommutes` | src/gatsby-node.js:22-26 | For every well-formed module record, normalizing the JSON object it stands for gives the same result as writing back the record `TransformModule` produces, failures included. |
| `Normalizer.ModuleNormalizedKeepsWf` | src/gatsby-node.js:22-26 | Normalizing a well-formed module gives a well-formed module: the arm still agrees with `type`. |
| `Normalizer.ProjectNormalizedKeepsWf` | src/gatsby-node.js:15-27 | Normalizing a well-formed project gives a well-formed project. |
| `RateLimiting.Scheduled` | src/gatsby-node.js:45-53 | A request arriving at `now` is let through at the earliest instant that is not before `now` and, when a previous request exists, at least 500 ms after it. |
| `RateLimiting.RateLimiter.constructor` | src/gatsby-node.js:41 | A new limiter has `lastCalled` unset. |
| `RateLimiting.RateLimiter.Call` | src/gatsby-node.js:43-54 | `lastCalled` becomes the instant at which the request is let through, `max(now, lastCalled + 500)` (or `now` on the first call). The wait is that instant minus `now`: never negative, and zero on the first call. |
| `RateLimiting.Slots` | src/gatsby-node.js:41-54 | The slots a limiter assigns to a sequence of requests form an admissible schedule. No request goes before it arrives, consecutive requests are at least 500 ms apart, and the first is at least 500 ms after the previous state. |
| `RateLimiting.SlotsAt` | src/gatsby-node.js:45-52 | The slot of request i is computed from the slot of request i-1 (or from the initial state for i = 0) and from its arrival time. |
| `RateLimiting.SlotsSpaced` | src/gatsby-node.js:45-52 | For i ≤ j, slot j is at least slot i + 500·(j − i). So slots strictly increase and no two requests share a slot. |
| `RateLimiting.SlotsEarliest` | src/gatsby-node.js:45-52 | Every admissible schedule lets each request through no earlier than the limiter does. The limiter never delays more than the spacing forces. |
| `RateLimiting.BurstSlots` | src/gatsby-node.js:41-54 | On a fresh limiter, when all requests arrive at the same instant T, request k (from 0) is let through at exactly T + 500·k. |
| `RateLimiting.SpacedRequestsNotDelayed` | src/gatsby-node.js:47-53 | On a fresh limiter, requests already arriving at least 500 ms apart are let through on arrival. |
| `RateLimiting.RunRequests` | src/gatsby-node.js:41-63 | A fresh limiter that receives the requests of one run at the given clock readings (the calls at lines 58, 59 and 63) returns, for each one, the distance from its arrival to its slot. |

## Left out

- The axios client, its base URL, the interceptor registration and the
  `setTimeout`/Promise mechanics of delaying a request
  (src/gatsby-node.js:34-36, 49, 56-64). This is network I/O and
  asynchronous plumbing. The model computes the wait and does not perform
  it; `Date.now()` becomes the parameter `now`.
- Asset mirroring with `createRemoteFileNode` and the in-place
  `module.localFile` assignment (src/gatsby-node.js:107-135). These are
  foreign calls inside an un-awaited concurrent `forEach`.
- The MD5 `contentDigest` and `JSON.stringify` (src/gatsby-node.js:60, 69,
  103, 168). These are foreign hashing and serialisation.
- `createNode` and the field-by-field projections into project and user
  records, including the user's `images['276']` avatar lookup
  (src/gatsby-node.js:71-105, 137-172). These are a call into the host store
  and plain field copying.
- The credential check (src/gatsby-node.js:30-32), a guard that only throws,
  and `console.count` logging.
- RateLimiting.RateLimiter.Call: models an unset `lastCalled` as `None`. The code tests
  `if (lastCalled)`, so a stored timestamp of 0 would also read as unset.
  Clock readings are never 0 in practice.
- Normalizer.TransformProject: a project without `covers`, `owners` or
  `modules`, or with a value of the wrong shape there, cannot be represented.
  At module level, missing or non-object fields are modelled (`DecodeModule`,
  `NormalizeModule`) and throw as in the code. The project itself is modelled
  only as a record.
- Normalizer.NormalizeImage: an array or a string in `sizes` or `dimensions`
  is rejected. `Object.entries` would enumerate it by index, so the code
  renames `"0"`, `"1"`, ... instead.
- JSON numbers are integers in `Normalizer.Json`. The normalizer never
  inspects values, so nothing depends on it.
- The normalizer is not idempotent: a second pass would prefix every key
  again (`"size_size_276"`). This follows from `Normalizer.RenameKeys` and is
  not stated separately.
- The model does not fix the order in which `Object.entries` lists keys.
  `Normalizer.DictIsRenameKeys` holds for every order, and the resulting
  mapping does not depend on it.
