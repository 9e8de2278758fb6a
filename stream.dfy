/** The gulp-notify stream transform as step functions on an abstract state:
    the buffered-last-file slot and the three traces the transform leaves
    behind (files pushed downstream, reporter calls, errors emitted). The
    reporter module itself is an oracle `Report` that completes at once with
    an optional error. */
module Stream {
  import opened Config

  /** A build file; the transform only reads it to hand it on. */
  datatype File = File(path: string, relative: string)

  /** An error handed back by the reporter and emitted on the stream. */
  datatype Err = Err(message: string)

  /** One call `report(reporter, file, options, templateOptions, done)`. */
  datatype ReportCall = ReportCall(reporter: Reporter, file: File, options: Options, templateOptions: map<string, string>)

  /** What a report call hands to its completion callback. */
  type Report = ReportCall -> Option<Err>

  datatype State = State(lastFile: Option<File>, pushed: seq<File>, reported: seq<ReportCall>, errors: seq<Err>)

  /** A freshly built stream: empty slot, nothing pushed, reported or emitted. */
  const Initial: State := State(None, [], [], [])

  /** The report call the stream makes for `f`. */
  function CallFor(setup: Setup, f: File): ReportCall {
    ReportCall(setup.reporter, f, setup.options, setup.templateOptions)
  }

  /** The errors one call emits: its error, if it reports one. */
  function Outcome(report: Report, call: ReportCall): seq<Err> {
    match report(call)
    case None => []
    case Some(e) => [e]
  }

  /** Per-item transform: report the file, emit the error if any, push the file. */
  function Notify(setup: Setup, report: Report, s: State, f: File): State {
    var call := CallFor(setup, f);
    s.(reported := s.reported + [call], errors := s.errors + Outcome(report, call), pushed := s.pushed + [f])
  }

  /** Last-item transform: keep the file in the slot and push it. */
  function Remember(s: State, f: File): State {
    s.(lastFile := Some(f), pushed := s.pushed + [f])
  }

  /** The transform the factory installs for its mode. */
  function TransformStep(setup: Setup, report: Report, s: State, f: File): State {
    if setup.onLast then Remember(s, f) else Notify(setup, report, s, f)
  }

  /** End of stream. The per-item stream installs no flush handler; the
      last-item one reports the buffered file once, if there is one, and
      empties the slot. */
  function FlushStep(setup: Setup, report: Report, s: State): State {
    if !setup.onLast then s
    else match s.lastFile
      case None => s
      case Some(f) =>
        var call := CallFor(setup, f);
        s.(reported := s.reported + [call], errors := s.errors + Outcome(report, call), lastFile := None)
  }

  /** The state after the transform has taken every file of `files`, in order. */
  function Feed(setup: Setup, report: Report, s: State, files: seq<File>): State {
    if files == [] then s
    else TransformStep(setup, report, Feed(setup, report, s, files[..|files| - 1]), files[|files| - 1])
  }

  /** A whole stream: every file, then end of stream. */
  function Run(setup: Setup, report: Report, files: seq<File>): State {
    FlushStep(setup, report, Feed(setup, report, Initial, files))
  }

  /** One report call per file, in order. */
  function CallsFor(setup: Setup, files: seq<File>): seq<ReportCall> {
    if files == [] then []
    else CallsFor(setup, files[..|files| - 1]) + [CallFor(setup, files[|files| - 1])]
  }

  /** The errors a sequence of calls emits, in order. */
  function Failures(report: Report, calls: seq<ReportCall>): seq<Err> {
    if calls == [] then []
    else Failures(report, calls[..|calls| - 1]) + Outcome(report, calls[|calls| - 1])
  }

  // ---------------------------------------------------------------------
  // Properties of the calls and failures of a stream

  /** The i-th report call is for the i-th file, with the settled reporter,
      options and template variables. */
  lemma {:induction false} CallsForAt(setup: Setup, files: seq<File>)
    ensures |CallsFor(setup, files)| == |files|
    ensures forall i :: 0 <= i < |files| ==> CallsFor(setup, files)[i] == CallFor(setup, files[i])
  {
    if files != [] {
      CallsForAt(setup, files[..|files| - 1]);
    }
  }

  /** Each call emits at most one error. */
  lemma {:induction false} FailuresBound(report: Report, calls: seq<ReportCall>)
    ensures |Failures(report, calls)| <= |calls|
  {
    if calls != [] {
      FailuresBound(report, calls[..|calls| - 1]);
    }
  }

  /** No error is emitted if and only if every call succeeded. */
  lemma {:induction false} NoFailuresIff(report: Report, calls: seq<ReportCall>)
    ensures Failures(report, calls) == [] <==> forall i :: 0 <= i < |calls| ==> report(calls[i]).None?
  {
    if calls != [] {
      var init := calls[..|calls| - 1];
      NoFailuresIff(report, init);
      assert forall i :: 0 <= i < |init| ==> init[i] == calls[i];
    }
  }

  /** Every call emits an error if and only if each call failed. */
  lemma {:induction false} AllFailIff(report: Report, calls: seq<ReportCall>)
    ensures |Failures(report, calls)| == |calls| <==> forall i :: 0 <= i < |calls| ==> report(calls[i]).Some?
  {
    if calls != [] {
      var init := calls[..|calls| - 1];
      AllFailIff(report, init);
      FailuresBound(report, init);
      assert forall i :: 0 <= i < |init| ==> init[i] == calls[i];
    }
  }

  // ---------------------------------------------------------------------
  // Properties of feeding files to the transform

  /** Whatever the mode and whatever the reporter answers, every file is
      pushed once, in arrival order. */
  lemma {:induction false} FeedPushesAll(setup: Setup, report: Report, s: State, files: seq<File>)
    ensures Feed(setup, report, s, files).pushed == s.pushed + files
  {
    if files != [] {
      var init := files[..|files| - 1];
      FeedPushesAll(setup, report, s, init);
      assert init + [files[|files| - 1]] == files;
    }
  }

  /** Per-item mode: each file is reported once, in order, and exactly the
      failing calls emit their errors; the slot is never used. */
  lemma {:induction false} FeedPerItem(setup: Setup, report: Report, s: State, files: seq<File>)
    requires !setup.onLast
    ensures Feed(setup, report, s, files).reported == s.reported + CallsFor(setup, files)
    ensures Feed(setup, report, s, files).errors == s.errors + Failures(report, CallsFor(setup, files))
    ensures Feed(setup, report, s, files).lastFile == s.lastFile
  {
    if files != [] {
      var init := files[..|files| - 1];
      FeedPerItem(setup, report, s, init);
      var calls := CallsFor(setup, files);
      assert calls[..|calls| - 1] == CallsFor(setup, init);
    }
  }

  /** Last-item mode: no report call and no error while files arrive, and the
      slot holds the most recent file. */
  lemma {:induction false} FeedOnLast(setup: Setup, report: Report, s: State, files: seq<File>)
    requires setup.onLast
    ensures Feed(setup, report, s, files).reported == s.reported
    ensures Feed(setup, report, s, files).errors == s.errors
    ensures Feed(setup, report, s, files).lastFile == if files == [] then s.lastFile else Some(files[|files| - 1])
  {
    if files != [] {
      FeedOnLast(setup, report, s, files[..|files| - 1]);
    }
  }

  /** Ending a stream twice reports nothing the second time. */
  lemma FlushIdempotent(setup: Setup, report: Report, s: State)
    ensures FlushStep(setup, report, FlushStep(setup, report, s)) == FlushStep(setup, report, s)
  {
  }

  // ---------------------------------------------------------------------
  // Properties of a whole stream

  /** Notification failures never drop or duplicate a file: out equals in. */
  lemma RunPushesAll(setup: Setup, report: Report, files: seq<File>)
    ensures Run(setup, report, files).pushed == files
  {
    FeedPushesAll(setup, report, Initial, files);
  }

  /** Per-item mode: one report call per file, with that file and in arrival
      order, and one error per failing call. */
  lemma RunPerItem(setup: Setup, report: Report, files: seq<File>)
    requires !setup.onLast
    ensures Run(setup, report, files).reported == CallsFor(setup, files)
    ensures |Run(setup, report, files).reported| == |files|
    ensures forall i :: 0 <= i < |files| ==> Run(setup, report, files).reported[i] == CallFor(setup, files[i])
    ensures Run(setup, report, files).errors == Failures(report, CallsFor(setup, files))
    ensures Run(setup, report, files).lastFile == None
  {
    FeedPerItem(setup, report, Initial, files);
    CallsForAt(setup, files);
  }

  /** Last-item mode: no call for an empty stream; otherwise exactly one, for
      the last file, after which the slot is empty. At most one error. */
  lemma RunOnLast(setup: Setup, report: Report, files: seq<File>)
    requires setup.onLast
    ensures Run(setup, report, files).reported == if files == [] then [] else [CallFor(setup, files[|files| - 1])]
    ensures Run(setup, report, files).errors == Failures(report, Run(setup, report, files).reported)
    ensures |Run(setup, report, files).errors| <= 1
    ensures Run(setup, report, files).lastFile == None
  {
    var fed := Feed(setup, report, Initial, files);
    FeedOnLast(setup, report, Initial, files);
    var r := FlushStep(setup, report, fed);
    assert r == Run(setup, report, files);
    if files != [] {
      var call := CallFor(setup, files[|files| - 1]);
      assert r.reported == [call] && r.errors == Outcome(report, call);
      assert [call][..0] == [];
    }
    FailuresBound(report, r.reported);
  }

  /** Every report call of a stream goes to the settled reporter, so a given
      notifier receives all of them. */
  lemma RunUsesReporter(setup: Setup, report: Report, files: seq<File>)
    ensures forall c :: c in Run(setup, report, files).reported ==> c.reporter == setup.reporter
  {
    if setup.onLast {
      RunOnLast(setup, report, files);
    } else {
      RunPerItem(setup, report, files);
    }
  }

  /** Three files in: three reporter calls by default, one with `onLast`, and
      three files out either way, through the caller's notifier. */
  lemma ThreeFiles(name: string, report: Report, files: seq<File>)
    requires |files| == 3
    ensures var s := Run(Configure(Settings(false, None, Some(Custom(name)), None, None)), report, files);
      |s.reported| == 3 && s.pushed == files && forall c :: c in s.reported ==> c.reporter == Custom(name)
    ensures var s := Run(Configure(Settings(true, None, Some(Custom(name)), None, None)), report, files);
      |s.reported| == 1 && s.pushed == files && forall c :: c in s.reported ==> c.reporter == Custom(name)
  {
    var perItem := Configure(Settings(false, None, Some(Custom(name)), None, None));
    var onLast := Configure(Settings(true, None, Some(Custom(name)), None, None));
    RunPerItem(perItem, report, files);
    RunPushesAll(perItem, report, files);
    RunUsesReporter(perItem, report, files);
    RunOnLast(onLast, report, files);
    RunPushesAll(onLast, report, files);
    RunUsesReporter(onLast, report, files);
  }
}
