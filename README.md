# Akses admin server: a verified model of its core

The server in `api/app.js` keeps a list of numbers (`nomor`), each
`"aktif"` or `"blokir"`, in a file `database.json` stored in a GitHub
repository. Four admin routes load the list, transform it (add, delete,
block, rename) and save it back through GitHub's contents API. Saving
fetches the file's current blob `sha` and sends it with the PUT. After a
successful PUT the server reloads the file and pushes it, as a
server-sent event, to every open `/events` connection.

This project models that core in Dafny:

- `entries.dfy` (module `Entries`) holds the entry datatype and the four
  transforms as functions. Lemmas cover order, content, idempotence, the
  round trip of a rename, and when each transform changes nothing.
- `subscriptions.dfy` (module `Subscriptions`) holds the subscriber objects,
  each with the log of text written to it. The `clients` list is a class
  whose `Add` appends and whose `Remove` filters by object identity.
- `remote_store.dfy` (module `RemoteStore`) holds the remote file as a value
  `(content, sha)`, the PUT body, and GitHub's reply to it. GitHub's own sha
  check is stated as an assumption about the store (the predicate `Guards`),
  not as something the code does.
- `app.dfy` (module `App`) holds the `Server` class: `loadData`, `saveData`,
  `broadcast` with its fan-out loop, and the POST routes. Every network
  answer is an input (`Network`, `LoadReply`, `MetaReply`, `PutReply`), and
  the remote file is the field `store`.

Where the code's behaviour may surprise, the model follows the code:

- `clients.push` does not de-duplicate: the list itself would hold a
  response twice if it were pushed twice. The `/events` handler always
  pushes its own fresh response object, so `Server.Connect` creates a
  fresh `Subscriber`, and `Server.Valid` (no response listed twice) is kept
  by connect and close. A route whose save succeeds and whose broadcast
  reload also succeeds therefore writes exactly one frame to each open
  connection (`App.Server.PostBroadcastsOnce`). When that reload fails, the
  route still redirects, and nothing is written (`App.Server.Broadcast`).
- A sha conflict is not a separate error. It is a PUT answered non-ok, which
  reports `"GitHub commit failed: "` followed by GitHub's text.
- A request that throws (a rejected `fetch`, a body that is not JSON) fails
  with that error's own message, without any prefix.
- The sha is tested for truthiness: a missing or empty sha stops the save
  before any PUT.
- The sha is fetched after the route has loaded and transformed the list
  (api/app.js:114-116, 32-36). GitHub's sha check therefore protects only
  the window between the metadata fetch and the PUT. A commit by another
  writer between this route's load and its metadata fetch is overwritten
  without any error. `StaleShaRejected` is about the later window only.
- There is no per-subscriber isolation in the fan-out (see Left out).

## Model

| member | source | states |
|---|---|---|
| `Entries.Truthy` | api/app.js:115 | `if (nomor)`: the field is present and its text is non-empty |
| `Entries.Matches` | api/app.js:127 | `item.nomor === nomor`: never true for an absent field; otherwise exactly when the texts are equal |
| `Entries.ParamText` | api/app.js:116 | a body field in a template literal is its text, or `"undefined"` when absent |
| `Entries.Add` | api/app.js:115 | a truthy `nomor` appends exactly `{nomor, "aktif"}` after the unchanged old list; an empty or absent one leaves the list as it was |
| `Entries.Delete` | api/app.js:127 | the result is no longer than the input and holds no entry with that `nomor` |
| `Entries.DeleteCounts` | api/app.js:127 | every copy of a matching entry is dropped and every copy of any other entry is kept |
| `Entries.DeleteConcat` | api/app.js:127 | delete distributes over concatenation, so survivors keep their original relative order |
| `Entries.DeleteNothing` | api/app.js:127 | deleting a `nomor` no entry carries returns the list unchanged |
| `Entries.DeleteUnchangedIff` | api/app.js:127 | delete leaves the list unchanged if and only if no entry carries that `nomor` |
| `Entries.DeleteIdempotent` | api/app.js:127 | deleting the same `nomor` a second time changes nothing |
| `Entries.BlockEntry` | api/app.js:139-141 | on one item: the `nomor` is kept, a match gets status `"blokir"`, a non-match is returned as is |
| `Entries.Block` | api/app.js:139-141 | length and every `nomor` are kept; each matching entry gets status `"blokir"`; every other entry is unchanged |
| `Entries.BlockIdempotent` | api/app.js:139-141 | blocking twice equals blocking once |
| `Entries.BlockUnchangedIff` | api/app.js:139-141 | block leaves the list unchanged if and only if every matching entry is already `"blokir"` |
| `Entries.DeleteAfterBlock` | api/app.js:127-141 | deleting after blocking removes exactly what deleting alone removes |
| `Entries.RenameEntry` | api/app.js:153-155 | on one item: the status is kept, a match gets `newNomor`, a non-match is returned as is |
| `Entries.Edit` | api/app.js:153-155 | length and every status are kept; each entry whose `nomor` equals `oldNomor` gets `newNomor`; every other entry is unchanged |
| `Entries.EditRoundTrip` | api/app.js:153-155 | renaming a to b and then b to a restores the list, when b was not in use |
| `Entries.EditUnchangedIff` | api/app.js:153-155 | edit leaves the list unchanged if and only if every entry matching `oldNomor` already carries `newNomor` |
| `Entries.EditCanDuplicate` | api/app.js:153-155 | there is no uniqueness check: whenever one entry has a and another has b, renaming a to b leaves both with b |
| `Entries.BlockThenAddScenario` | api/app.js:111-147 | from `[0811 aktif]`, block 0811 gives `[0811 blokir]`, and adding 0822 then appends `0822 aktif` |
| `Subscriptions.Subscriber.constructor` | api/app.js:65-71 | a newly opened event stream has nothing written to it |
| `Subscriptions.Subscriber.Write` | api/app.js:85 | `client.write` appends the text to that stream's log |
| `Subscriptions.Without` | api/app.js:76 | the filtered list is no longer than the old one, never holds the closed handle, and holds nothing new |
| `Subscriptions.WithoutCounts` | api/app.js:76 | every copy of the closed handle goes and every other handle keeps its number of copies |
| `Subscriptions.WithoutConcat` | api/app.js:76 | the filter distributes over concatenation, so the other handles keep their order |
| `Subscriptions.WithoutAbsent` | api/app.js:76 | closing a handle that is not listed leaves the list unchanged |
| `Subscriptions.WithoutUnchangedIff` | api/app.js:76 | the filter changes the list if and only if the handle is in it |
| `Subscriptions.AddTwiceRemove` | api/app.js:73-76 | two connects and one close of the same handle leave no copy of it; a second close changes nothing |
| `Subscriptions.DistinctOnce` | api/app.js:84-86 | in a list without duplicates each member occurs exactly once |
| `Subscriptions.DistinctAdd` | api/app.js:73 | pushing a handle that is not yet listed keeps the list free of duplicates |
| `Subscriptions.DistinctWithout` | api/app.js:76 | filtering never introduces a duplicate |
| `Subscriptions.Registry.constructor` | api/app.js:21 | the list starts empty |
| `Subscriptions.Registry.Add` | api/app.js:73 | connect appends the handle at the end, even when it is already listed |
| `Subscriptions.Registry.Remove` | api/app.js:75-77 | close sets the list to the old one filtered by identity: the handle is gone and all others keep their counts |
| `RemoteStore.HasSha` | api/app.js:36 | `meta.sha` is truthy: the metadata has a sha field and it is not the empty string |
| `RemoteStore.Apply` | api/app.js:40-52 | an accepted PUT replaces the file's content and sha; a PUT answered non-ok, or one that threw, leaves the file as it was |
| `RemoteStore.StaleShaRejected` | api/app.js:49 | if two writers present the same sha and the first is accepted with new content, a store that guards its sha rejects the second, and the first one's content stays |
| `RemoteStore.UnchangedCommitLetsSecondThrough` | api/app.js:49 | there is a run, allowed by `Guards`, in which a first commit that leaves the content unchanged keeps the sha, and a second writer holding that sha is accepted and overwrites it |
| `App.Transform` | api/app.js:115-155 | each route's transform: add only extends the list; delete shrinks it and leaves no matching entry; block and edit keep the length; block keeps every `nomor`; edit keeps every status |
| `App.CommitMessage` | api/app.js:116-156 | each message is the route's fixed prefix followed by the field texts; the edit message uses the three characters `â†’` between old and new, as the source text holds them |
| `App.Outcome` | api/app.js:32-57 | a metadata request that threw fails with its own message; otherwise a missing or empty sha is a metadata error; otherwise a non-ok PUT gives a write error carrying GitHub's text, and a PUT that threw fails with its own message; success needs a truthy sha and an accepted PUT |
| `App.ErrorMessage` | api/app.js:36-56 | the thrown messages: `"Cannot retrieve file SHA for commit"`; `"GitHub commit failed: "` followed by the response text; or the message of the error a request threw |
| `App.Respond` | api/app.js:116-120 | a route redirects if and only if the save succeeded; otherwise it answers 500 with the save's error message |
| `App.Frame` | api/app.js:85 | the frame is `data: `, then the payload, then the two newlines that end the event |
| `App.OneFramePerSubscriber` | api/app.js:84-86 | while each connection is listed once, a broadcast writes exactly one frame to each of them |
| `App.Server.constructor` | api/app.js:13-21 | the server starts with an empty subscriber list, which is free of duplicates, and no PUT sent |
| `App.Server.Connect` | api/app.js:65-73 | a new connection pushes a fresh response object with an empty log at the end of the list; the list stays free of duplicates |
| `App.Server.Close` | api/app.js:75-77 | a closed connection is filtered out of the list by identity; the list stays free of duplicates |
| `App.Server.LoadData` | api/app.js:23-28 | a successful load returns the remote file's current content. A non-ok status fails with `"Error fetching database.json"`; a rejected fetch or an unparsable body fails with its own message |
| `App.Server.FanOut` | api/app.js:84-86 | the list is not changed; the write targets are exactly the list, in list order; each subscriber's log grows by one frame per occurrence in the list |
| `App.Server.Broadcast` | api/app.js:81-90 | after a successful reload every listed subscriber receives frame `"data: " + payload + "\n\n"` of the reloaded content once per occurrence; a failed reload is swallowed and nothing is written |
| `App.Server.SaveData` | api/app.js:30-62 | the result is `Outcome` of the two answers. If the metadata request threw, or its sha is missing or empty, nothing is sent, nothing changes and nobody is written to. Otherwise exactly one PUT is sent, carrying that metadata sha, and the file changes only if GitHub accepts. A PUT answered non-ok, or one that threw, writes to nobody. An accepted one broadcasts the new content if the reload succeeds |
| `App.Server.PostBroadcastsOnce` | api/app.js:81-161 | when load, metadata, PUT and reload all succeed and no connection is listed twice, the route redirects, the file holds the transformed list, and every open connection receives exactly one frame of it |
| `App.Server.Post` | api/app.js:111-161 | a failed load answers 500 with the load's message (`"Error fetching database.json"` for a non-ok status) before anything is sent. Otherwise the route saves the transform of the loaded list with its commit message, add included even when nothing was appended. The response follows the save's outcome |

## Left out

- Express setup, the view engine, static files, body parsing, the headers
  and the flushing of `/events`, and the GET routes `/raw`, `/` and `/admin`
  (api/app.js:1-11, 65-71, 93-109): framework glue. Redirects and 500
  answers of the POST routes are modelled as the `Response` value.
- URLs, the owner/repo/branch constants, the auth header and the token from
  the environment (api/app.js:13-18, 24, 31-34, 40-52): network
  configuration. Each HTTP exchange is an abstract step whose answer is an
  input.
- `JSON.stringify`, `res.json()` and base64 encoding: serialisation. The
  payload of a frame is `encode(document)` for an arbitrary function
  `encode` fixed when the server is built. A PUT body is modelled by the
  document it carries, not by its encoding.
- What GitHub does with a PUT is an assumption, not the code's behaviour.
  `Apply` says what an answer does to the file. The `Server` takes GitHub's
  answer as an input and does not impose `Guards`: `App.Server.SaveData`
  and `App.Server.Post` apply any `Accepted` answer, even one to a stale
  sha. `RemoteStore.StaleShaRejected` says what the guard gives for two
  PUTs on which it holds.
- `App.Server.LoadData`: the raw-content endpoint may serve a cached copy.
  The model returns the store's current content on success and leaves
  staleness out.
- `RemoteStore.Apply`: a PUT whose `fetch` threw is taken as one GitHub
  never applied. A request lost after GitHub committed it is not modelled.
- A non-ok PUT whose body text cannot be read (`res.text()` throwing) is
  not modelled. Neither is a `meta.sha` that holds something other than a
  string.
- `App.Server.SaveData`, `App.Server.Post`: the final `return res.json()` (api/app.js:61) is
  not modelled. If GitHub's success body failed to parse, the route would
  answer 500 after a successful commit and broadcast.
- `App.Server.FanOut`: a `client.write` that throws is not modelled. In the
  code that aborts the loop for the remaining subscribers and is swallowed
  by the surrounding catch. The model proves no per-subscriber isolation.
- `App.Server.Broadcast`: it is not awaited (api/app.js:60), and requests
  interleave on the event loop. The model runs it to completion right after
  the PUT and does not model races between concurrent requests.
- `Entries.Edit`, `Entries.RenameEntry`, `App.Transform`, `App.CommitMessage`:
  `newNomor` is taken to be present. A request without it would give the
  renamed entries a `nomor` of `undefined`, which serialisation then drops,
  and a commit message ending in `undefined`. `Entry` cannot represent that.
- Stored entries are exactly `{nomor, status}` with a string `nomor`. The
  model does not carry extra fields, which the spread in block and edit
  would preserve. Body fields that are arrays or objects (extended
  urlencoded parsing) are not modelled.
- `console.error` logging in broadcast (api/app.js:88).
- The edit commit message carries the three characters `â†’` (U+00E2,
  U+2020, U+2019), which is what the source text holds at api/app.js:156.
  They are evidently an arrow whose UTF-8 bytes were re-decoded as
  Windows-1252. The model keeps the characters as written.
