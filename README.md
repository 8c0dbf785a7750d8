# hi-app launcher: port derivation and backend handle

This project models the launcher of hi-app. The launcher is an Electron app.
At load it draws a random port in `[50000, 60000]`. When the app is ready it
spawns a `bun` backend told to listen on that port, and opens a window on
`http://localhost:<port>`. When the app is about to quit, it kills the backend
if one was spawned.

Modules:

- `RandomPort` (random_port.dfy). The four random bytes are read as an
  unsigned 32-bit little-endian integer. `getSecureRandomInt(min, max)` is
  modelled with JavaScript's semantics: a zero range gives `NaN`, and the
  remainder takes the sign of the (non-negative) dividend. `PORT` is
  `getSecureRandomInt(50000, 60000)` of one draw.
- `Decimal` (decimal.dfy). This is the decimal text that a template literal
  `${PORT}` produces. A reader for that text is the partner that lets the
  model state that the port survives being written into a string.
- `Launcher` (launcher.dfy). The `Launcher` class holds the module-level
  globals: `PORT` is a `const`, `expressServer` an `Option` field. A spawn
  counter numbers the handles, so two spawned children are told apart. A ghost
  sequence records each `kill()` issued and the handle it went to. The pure
  functions `Step` and `Run` give the effect of each event and of an event
  sequence. Each handler method is proved to change the object's state exactly
  as `Step` says, and the lemmas about `Run` state what holds over any sequence
  of events.

The launcher has no port probe, no retry, no lifecycle state and no
double-kill guard. The model follows the code:

- PORT is drawn once and used without checking that it is free.
- Every `before-quit` after the spawn issues another `kill()`
  (`QuitTwiceKillsTwice`).
- A spawn failure that Node reports asynchronously (such as a missing `bun`
  executable) reaches only the child's `error` handler, which logs. The handle
  stays set, so `before-quit` still calls `kill()` on it.
- The window URL is `http://localhost:<PORT>`.

## Model

| member | source | states |
|---|---|---|
| `RandomPort.LittleEndian` | index.js:11 | the value of n little-endian bytes is below 256^n |
| `RandomPort.ReadUInt32LE` | index.js:11 | the four drawn bytes read as `b0 + 256*b1 + 65536*b2 + 16777216*b3`, always below 2^32 |
| `RandomPort.DecodeEncode` | index.js:11 | reading back the n little-endian bytes of any v < 256^n gives v |
| `RandomPort.EncodeDecode` | index.js:11 | writing the value of a byte sequence back as little-endian bytes gives the same sequence |
| `RandomPort.ReadUInt32LEBijective` | index.js:11 | each value in [0, 2^32) is read from exactly one 4-byte draw |
| `RandomPort.JsRemainder` | index.js:12 | `%` of a non-negative dividend is its remainder modulo the divisor's magnitude: below that magnitude, and the dividend minus a multiple of it (the dividend itself when smaller) |
| `RandomPort.GetSecureRandomInt` | index.js:9-13 | the result is NaN exactly when `max - min + 1` is 0; if `min <= max` it is a number in `[min, max]` for every draw; otherwise it lies in `[min, min + abs(range))` |
| `RandomPort.DerivePort` | index.js:15 | PORT lies in `[50000, 60000]` for every draw |
| `RandomPort.EveryPortReachable` | index.js:15 | every port in `[50000, 60000]` is produced by some draw |
| `Decimal.DecimalText` | index.js:18 | the text of a port is non-empty, all digits, and has no leading zero |
| `Decimal.ParseDecimalText` | index.js:18 | reading the decimal text of n gives back n |
| `Decimal.DecimalTextInjective` | index.js:42 | two numbers have the same decimal text exactly when they are equal |
| `Launcher.PortArgumentCarriesPort` | index.js:18 | the child's `--port=` argument reads back as PORT |
| `Launcher.WindowUrlCarriesPort` | index.js:42 | the window URL `http://localhost:<PORT>` reads back as PORT |
| `Launcher.Spawn` | index.js:18-21 | the child is `bun` with exactly two arguments: the script `index.js` inside its working directory `<dir>/src`, and a `--port=` argument carrying the same port as the window URL; each spawn yields a handle numbered by its spawn |
| `Launcher.Step` | index.js:23-58 | only the spawn (whenReady) changes the handle, to a new child; the child's exit and error leave it as it is; only a `before-quit` with the handle set issues a kill, of that handle |
| `Launcher.NoKillBeforeStart` | index.js:51-55 | a sequence of events without the spawn leaves the handle unset and issues no kill |
| `Launcher.KillPerQuitOnceStarted` | index.js:23-29 | once the handle is set and with no further spawn, no event clears it (the child's exit and error included), and each `before-quit` adds one more kill of that handle |
| `Launcher.RunFromLoad` | index.js:50-58 | from load, with the backend spawned at most once, the handle is set exactly when the spawn has happened, and the kills issued are one per `before-quit` after the spawn, all of the first child |
| `Launcher.QuitTwiceKillsTwice` | index.js:52-53 | spawn followed by two `before-quit` events kills the same child twice |
| `Launcher.SecondSpawnOrphansFirst` | index.js:18 | were the backend spawned twice, the assignment would overwrite the handle: the first child is never killed, only the second |
| `Launcher.Launcher.constructor` | index.js:6-15 | at load PORT is drawn once and lies in `[50000, 60000]`; the handle is unset and no kill has been issued |
| `Launcher.Launcher.StartExpress` | index.js:17-21 | the handle becomes a newly spawned child, replacing any earlier one; no kill is issued |
| `Launcher.Launcher.OnReady` | index.js:57-59 | the state steps as for the spawn event, and the URL handed to the window is `http://localhost:<PORT>` for the same PORT |
| `Launcher.Launcher.OnBeforeQuit` | index.js:51-55 | one kill of the current handle is issued if the handle is set, none otherwise; the handle is unchanged |
| `Launcher.Launcher.OnChildExit` | index.js:27-29 | the child's exit changes nothing: the handle stays set |
| `Launcher.Launcher.OnChildError` | index.js:23-25 | the child's error changes nothing: the handle stays set |

## Left out

- Window management is not modelled: `BrowserWindow`, the menu, and the `closed`, `activate` and `window-all-closed` handlers (index.js:32-48, 57-72). `OnReady` only returns the URL the window would load.
- The effects of `spawn` and `kill` on the operating system and the stdio configuration are not modelled. The child is an opaque handle recorded as its spawn number, command, arguments and working directory.
- The console output of the child's `error` and `exit` handlers is not modelled. They change no state.
- `crypto.randomBytes` is not modelled. The four bytes are an arbitrary input, and no claim of uniformity is made. 2^32 is not a multiple of 10001, so the reduction is slightly biased.
- `path.join` is read as concatenation with `/`, without normalisation.
- `RandomPort.GetSecureRandomInt` takes `min` and `max` as exact integers. JavaScript's double-precision rounding for bounds beyond 2^53 is not modelled.
- `Launcher.Step` lets a second ready event spawn a second child. Like a second call of `startExpress`, that overwrites the handle, and the first child is orphaned and never killed (`SecondSpawnOrphansFirst`). `whenReady` resolves once, so this does not happen in the program, and `RunFromLoad` is stated for a single spawn.
- A spawn failure that Node raises synchronously, as a thrown exception, is not modelled. In that case the assignment at index.js:18 never happens, `expressServer` stays unset, and `createWindow()` is skipped. The model treats every spawn as returning a handle.
- Decimal text is modelled as JavaScript writes integers below 10^21. Ports are far below that bound.
