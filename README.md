# gulp-notify stream transform, modelled in Dafny

gulp-notify is a gulp plugin. It sits in a build pipeline, sends desktop
notifications about the files that pass through, and hands every file on
downstream unchanged. This project models its factory and stream transform,
`lib/notify.js`:

- **Options defaulting** (`Config`). A falsy options value (missing, or the
  empty string) becomes `{}`. A missing `templateOptions` becomes `{}`. The
  reporter is `options.notifier` when one is given. Otherwise it is a desktop
  notifier built from the defaulted options. A truthy `onLast` selects
  last-item mode; anything else selects per-item mode.
- **Step functions** (`Stream`). An abstract state holds the `lastFile` slot and
  three traces: the files pushed downstream, the report calls made and the
  errors emitted. There is one step function per transform, one for end of
  stream, and a fold over a whole input sequence. Lemmas prove the stream's
  counting and ordering properties about these functions.
- **The stream object** (`Transform`). `NotifyTransform` is a class with the
  mutable slot and the trace fields. Its `Transform` and `Flush` methods are
  proved against the step functions. `NotifyAll` builds a stream, feeds it a
  whole sequence of files in a loop and ends it. Its contract states the
  whole-stream guarantees: 3 files in give 3 files out, and 3 reporter calls
  in per-item mode or 1 in last-item mode.

The reporter module (`lib/report.js`) is not part of this model. Here it is an
oracle passed in as a parameter, `Report = ReportCall -> Option<Err>`. It
completes at once and hands back an optional error. A `ReportCall` records
the arguments `notify.js` passes to `report`: the reporter, the file, the
options and the template variables. Of the options record it keeps `onLast`,
`templateOptions`, `notifier`, `title` and `message`. A JavaScript function
cannot be compared with another, so a caller-supplied notifier, and a function
given as `title` or `message`, is identified by a name (`Custom(name)`,
`FromFile(name)`). The default notifier is `NodeNotifier(options)`.

## Model

| member | source | states |
|---|---|---|
| `Config.Configure` | lib/notify.js:10-31 | Falsy options (missing, or the empty string) are replaced by `{}`; truthy options are passed on unchanged. Last-item mode holds exactly when a record sets `onLast`. The template variables are the record's own when given, else the empty mapping. The reporter is the given notifier, else the default notifier built from the defaulted options. |
| `Config.ConfigureIdempotent` | lib/notify.js:10-11 | Configuring again from the defaulted options gives the same setup. |
| `Config.FalsyIsEmptyRecord` | lib/notify.js:10-17 | Every falsy options value, missing or the empty string, behaves exactly as `{}`: per-item mode, no template variables, the default notifier built from `{}`. |
| `Stream.CallsForAt` | lib/notify.js:21-24 | There is one report call per file. The i-th call is for the i-th file, with the settled reporter, options and template variables. |
| `Stream.FailuresBound` | lib/notify.js:25 | A sequence of report calls emits at most one error per call. |
| `Stream.NoFailuresIff` | lib/notify.js:25 | No error is emitted if and only if every report call succeeded. |
| `Stream.AllFailIff` | lib/notify.js:25 | One error per call is emitted if and only if every report call failed. |
| `Stream.FeedPushesAll` | lib/notify.js:21-39 | In both modes, and whatever the reporter answers, feeding files appends exactly those files, in arrival order, to what was pushed. |
| `Stream.FeedPerItem` | lib/notify.js:21-29 | In per-item mode, feeding files appends one report call per file, in order. It appends exactly the errors of the failing calls, in order. The slot is never touched. |
| `Stream.FeedOnLast` | lib/notify.js:36-39 | In last-item mode, feeding files makes no report call and emits no error. Afterwards the slot holds the most recent file, or is unchanged if no file came. |
| `Stream.FlushIdempotent` | lib/notify.js:43-53 | A second end of stream reports and changes nothing, because flush empties the slot. |
| `Stream.RunPushesAll` | test/main.js:180-210 | Over a whole stream in either mode, the files pushed downstream equal the input files. |
| `Stream.RunPerItem` | lib/notify.js:21-32 | In per-item mode a whole stream makes exactly one report call per file, for that file and in arrival order. Its errors are exactly those of the failing calls. The slot stays empty. |
| `Stream.RunOnLast` | lib/notify.js:36-55 | In last-item mode an empty stream makes no report call. A non-empty stream makes exactly one call, for the last file. It emits at most one error, the one from that call. The slot ends empty. |
| `Stream.RunUsesReporter` | lib/notify.js:13-18 | Every report call of a stream goes to the settled reporter. |
| `Stream.ThreeFiles` | test/main.js:119-177 | With a caller's notifier and three files: per-item mode makes 3 calls and last-item mode makes 1. Both push the 3 files, and every call goes to that notifier. |
| `Transform.NotifyTransform.constructor` | lib/notify.js:7-19 | A new stream holds the setup settled from its options. Its slot is empty and its traces are empty. |
| `Transform.NotifyTransform.Transform` | lib/notify.js:21-39 | In per-item mode the file is reported once. The reporter's error, if any, is emitted once. The file is pushed whether or not the report failed. In last-item mode the file goes into the slot (the slot now holds exactly this file) and is pushed at once, with no report call and no error. Both cases match `Stream.TransformStep`. |
| `Transform.NotifyTransform.Flush` | lib/notify.js:40-55 | Per-item mode, or an empty slot: nothing changes. Otherwise the buffered file is reported once, its error (if any) is emitted, and the slot is emptied. Nothing is pushed. Both cases match `Stream.FlushStep`. |
| `Transform.NotifyAll` | lib/notify.js:21-55 | A whole stream pushes out exactly its input. In per-item mode it makes one report call per file, in order, and emits exactly the failing calls' errors. In last-item mode it makes no call for an empty stream, else exactly one, for the last file, and emits at most one error. Every call goes to the settled reporter. |

## Left out

- `lib/report.js` is not part of this model. That leaves out how the title and
  message are resolved (string and function shorthands, the record's `title` and
  `message` fields, template rendering), the logger and the log levels. Reporting
  is an abstract outcome function of the call. The `MessageFn` shape of the
  options and the record's `title` and `message` fields (a fixed string, or a
  function of the file identified by a name) only travel along in
  `ReportCall.options`. The record's other fields are not represented.
- `lib/extra_api.js` and `lib/withReporter.js` are not part of this model. That
  leaves out `onError`, `logLevel`, `logger` and `withReporter`, which `index.js`
  re-exports.
- The desktop notifier (`node-notifier`) is foreign code. It appears only as the
  value `NodeNotifier(options)`; no notification is displayed.
- The `through2` stream protocol is foreign code. Backpressure, the `enc`
  argument and end-of-stream propagation are not modelled. A completion callback
  is modelled as the method returning.
- Asynchronous completion is not modelled: the reporter completes
  synchronously. The flush handler finishes once. In the source, any error
  the reporter reports makes it call its callback twice (lib/notify.js:50 and
  54: line 50 first for an error reported at once, line 54 first for one
  reported later); that is a stream-protocol detail and is left out.
- Order across traces is not modelled. The traces keep order within each of
  pushed files, report calls and errors, but not how they interleave. For
  example, per-item mode emits a file's error before pushing the file.
- Error events are assumed to be handled. Emitting `"error"` (lib/notify.js:25
  and 49) is modelled as appending to `errors` and carrying on. In Node, an
  `"error"` event with no listener throws; then the push and callback after
  line 25 do not run. `pipe`, which every gulp pipeline goes through, also
  installs its own error handler. At the first error, that handler unpipes the
  upstream whether or not another listener exists, so no later file arrives.
  The model captures neither. Its guarantees for the files after a failing
  call hold only when error events have a listener and the upstream keeps
  writing after an error, which `pipe` alone does not do.
- The reporter oracle (`Report`): an outcome depends only on the call's arguments, so equal
  calls always get the same answer. A reporter that fails for a file once
  and succeeds for the same file later cannot be expressed. None of the
  proved properties depends on this.
- Function-valued options: a function value of the options is truthy and is modelled
  as having no `onLast`, `templateOptions` or `notifier` properties. A falsy
  non-record `templateOptions` or `notifier` value is modelled as absent.
