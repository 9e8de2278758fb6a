/** The object the gulp-notify factory returns: a transform stream with one
    mutable slot for the last file seen (used only with `onLast`), whose
    effects on the surrounding pipeline (files pushed downstream, reporter
    calls, errors emitted) are kept as traces. */
module Transform {
  import opened Config
  import opened Stream

  class NotifyTransform {
    /** What the factory settled from its options. */
    const setup: Setup
    /** The reporter module, completing at once. */
    const report: Report

    /** `lastFile` of the factory's closure. */
    var lastFile: Option<File>
    var pushed: seq<File>
    var reported: seq<ReportCall>
    var errors: seq<Err>

    /** The abstract state the step functions of `Stream` speak about. */
    function Model(): State
      reads this
    {
      State(lastFile, pushed, reported, errors)
    }

    /** `notify(options)`: settles the options and builds the stream. */
    constructor (options: Options, report: Report)
      ensures setup == Configure(options) && this.report == report
      ensures lastFile == None && pushed == [] && reported == [] && errors == []
      ensures Model() == Initial
    {
      setup := Configure(options);
      this.report := report;
      lastFile := None;
      pushed := [];
      reported := [];
      errors := [];
    }

    /** One file arrives. Per-item mode reports it, emits the reporter's error
        if any, and pushes the file; last-item mode stores it in the slot
        and pushes it at once. */
    method Transform(f: File)
      modifies this
      ensures Model() == TransformStep(setup, report, old(Model()), f)
      ensures pushed == old(pushed) + [f]
      ensures !setup.onLast ==> reported == old(reported) + [CallFor(setup, f)]
      ensures !setup.onLast ==> lastFile == old(lastFile)
      ensures !setup.onLast && report(CallFor(setup, f)).None? ==> errors == old(errors)
      ensures !setup.onLast && report(CallFor(setup, f)).Some? ==> errors == old(errors) + [report(CallFor(setup, f)).value]
      ensures setup.onLast ==> lastFile == Some(f) && reported == old(reported) && errors == old(errors)
    {
      if !setup.onLast {
        var call := CallFor(setup, f);
        reported := reported + [call];
        var outcome := report(call);
        if outcome.Some? {
          errors := errors + [outcome.value];
        }
        pushed := pushed + [f];
      } else {
        lastFile := Some(f);
        pushed := pushed + [f];
      }
    }

    /** End of stream. Only the last-item stream has a flush handler: with
        an empty slot it completes at once, otherwise it reports the buffered
        file once, emits the error if any, and empties the slot. */
    method Flush()
      modifies this
      ensures Model() == FlushStep(setup, report, old(Model()))
      ensures pushed == old(pushed)
      ensures !setup.onLast || old(lastFile).None? ==> Model() == old(Model())
      ensures setup.onLast && old(lastFile).Some? ==>
        && lastFile == None
        && reported == old(reported) + [CallFor(setup, old(lastFile).value)]
        && errors == old(errors) + Outcome(report, CallFor(setup, old(lastFile).value))
    {
      if !setup.onLast {
        return;
      }
      if lastFile.None? {
        return;
      }
      var call := CallFor(setup, lastFile.value);
      reported := reported + [call];
      var outcome := report(call);
      if outcome.Some? {
        errors := errors + [outcome.value];
      }
      lastFile := None;
    }
  }

  /** Pipes `files` through a fresh stream built from `options` and ends it;
      returns what came out downstream, the reporter calls made and the
      errors emitted. */
  method NotifyAll(options: Options, report: Report, files: seq<File>)
    returns (pushed: seq<File>, reported: seq<ReportCall>, errors: seq<Err>)
    ensures State(None, pushed, reported, errors) == Run(Configure(options), report, files)
    ensures pushed == files
    ensures !Configure(options).onLast ==>
      && |reported| == |files|
      && (forall i :: 0 <= i < |files| ==> reported[i].file == files[i])
      && errors == Failures(report, reported)
    ensures Configure(options).onLast ==>
      && reported == (if files == [] then [] else [CallFor(Configure(options), files[|files| - 1])])
      && |errors| <= 1
    ensures forall c :: c in reported ==> c.reporter == Configure(options).reporter
  {
    var t := new NotifyTransform(options, report);
    var i := 0;
    while i < |files|
      invariant 0 <= i <= |files|
      invariant t.setup == Configure(options) && t.report == report
      invariant t.Model() == Feed(t.setup, report, Initial, files[..i])
    {
      assert files[..i + 1][..i] == files[..i];
      t.Transform(files[i]);
      i := i + 1;
    }
    assert files[..i] == files;
    t.Flush();
    pushed, reported, errors := t.pushed, t.reported, t.errors;
    RunPushesAll(t.setup, report, files);
    RunUsesReporter(t.setup, report, files);
    if t.setup.onLast {
      RunOnLast(t.setup, report, files);
    } else {
      RunPerItem(t.setup, report, files);
    }
  }
}
