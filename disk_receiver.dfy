/**
 * The disk receiver: a writable object stream that is handed one incoming
 * file at a time, writes it under its destination path and reports each
 * file's outcome. The stream machinery, the file system and the progress
 * stream are outside the model; what they report arrives as calls of the
 * receiver's callback methods.
 */
module DiskReceiver {
  import opened Wrappers
  import opened JsValues
  import opened UploadLimit
  import opened Destination

  /**
   * An entry of the receiver's `_files` list, kept up to date by the
   * progress stream: a destination identifier and the bytes counted for it.
   */
  datatype FileRecord = FileRecord(fd: string, total: nat)

  /** A failure reported by the file system or by the progress stream, kept as it is given. */
  datatype Fault = Fault(detail: string)

  /** What the receiver passes to `done` or emits as `error`. */
  datatype ReceiverError =
    | InvalidSkipperFd(candidate: JsValue)
    | MkdirsFailed(cause: Fault)
    | LimitExceeded(cause: Fault)
    | WriteFailed(path: string, field: string, cause: Fault)
    | ProgressFailed(path: string, field: string, cause: Fault)

  /** The receiver's observable actions, in the order it takes them. */
  datatype Event =
    | MkdirsCalled(path: string)          // creation of the parent directories of `path`
    | WriterOpened(file: IncomingFile, path: string) // write stream on `path` for `file` created, handlers bound, pipes set up
    | WriteFileEmitted(file: IncomingFile) // `writefile` emitted with the file
    | ErrorEmitted(err: ReceiverError)    // `error` emitted on the receiver
    | DoneCalled(outcome: Option<ReceiverError>) // the admission's `done` callback

  /** Where the file currently admitted is in its life; `Idle` when none is. */
  datatype Phase =
    | Idle
    | MakingDirs(file: IncomingFile, path: string)
    | Writing(file: IncomingFile, path: string)

  /** The number of `done` calls in a log. */
  function DoneCount(log: seq<Event>): (n: nat)
  {
    if log == [] then 0
    else DoneCount(log[..|log| - 1]) + (if log[|log| - 1].DoneCalled? then 1 else 0)
  }

  lemma {:induction false} DoneCountAppend(log: seq<Event>, more: seq<Event>)
    ensures DoneCount(log + more) == DoneCount(log) + DoneCount(more)
  {
    if more == [] {
      assert log + more == log;
    } else {
      var front := more[..|more| - 1];
      assert (log + more)[..|log + more| - 1] == log + front;
      assert (log + more)[|log + more| - 1] == more[|more| - 1];
      DoneCountAppend(log, front);
    }
  }

  /**
   * `_.find(files, {fd: fd})`: the position of the first record for `fd`,
   * if there is one.
   */
  function FindRecord(files: seq<FileRecord>, fd: string): (r: Option<nat>)
    ensures r.Some? ==> r.value < |files| && files[r.value].fd == fd
    ensures r.Some? ==> forall k :: 0 <= k < r.value ==> files[k].fd != fd
    ensures r.None? <==> forall k :: 0 <= k < |files| ==> files[k].fd != fd
  {
    if files == [] then None
    else if files[0].fd == fd then Some(0)
    else match FindRecord(files[1..], fd)
      case Some(k) => Some(k + 1)
      case None => None
  }

  /** One incoming file: its metadata and the two properties the receiver writes. */
  class IncomingFile {
    const field: string
    const filename: string
    const fd: JsValue
    var skipperFd: JsValue
    var byteCount: Option<nat>

    constructor (field: string, filename: string, fd: JsValue, skipperFd: JsValue)
      ensures this.field == field && this.filename == filename
      ensures this.fd == fd && this.skipperFd == skipperFd && byteCount == None
    {
      this.field := field;
      this.filename := filename;
      this.fd := fd;
      this.skipperFd := skipperFd;
      byteCount := None;
    }
  }

  class Receiver {
    const options: Options
    const resolve: Resolver
    var files: seq<FileRecord>
    var events: seq<Event>
    var phase: Phase
    /** How many files have been handed to the receiver. */
    ghost var admissions: nat

    /**
     * Every admission but the one in progress has had exactly one `done`
     * call.
     */
    ghost predicate Valid()
      reads this
    {
      admissions == DoneCount(events) + (if phase.Idle? then 0 else 1)
    }

    /** Building the receiver: the options are normalised once, the lists start empty. */
    constructor (supplied: Option<Options>, resolve: Resolver)
      ensures Valid()
      ensures options == Configure(supplied) && this.resolve == resolve
      ensures files == [] && events == [] && phase == Idle && admissions == 0
    {
      options := Configure(supplied);
      this.resolve := resolve;
      files := [];
      events := [];
      phase := Idle;
      admissions := 0;
    }

    /**
     * `_write`: a new file is handed over. An unusable identifier completes
     * the admission at once, before any file-system call; otherwise the
     * destination is fixed and directory creation is requested.
     */
    method OnFile(file: IncomingFile, cwd: string)
      requires Valid() && phase.Idle?
      modifies this, file
      ensures Valid() && admissions == old(admissions) + 1
      ensures files == old(files) && file.byteCount == old(file.byteCount)
      ensures var selected := SelectFd(old(file.skipperFd), file.fd);
        selected.Err? ==>
          && events == old(events) + [DoneCalled(Some(InvalidSkipperFd(selected.error)))]
          && phase == Idle
          && file.skipperFd == old(file.skipperFd)
      ensures var selected := SelectFd(old(file.skipperFd), file.fd);
        selected.Ok? ==>
          var path := ResolveDestination(selected.value, cwd, options.dirpath, options.filename, resolve);
          && events == old(events) + [MkdirsCalled(path)]
          && phase == MakingDirs(file, path)
          && file.skipperFd == (if IsAbsolute(selected.value) then old(file.skipperFd) else Str(path))
    {
      admissions := admissions + 1;
      var selected := SelectFd(file.skipperFd, file.fd);
      assert selected == SelectFd(old(file.skipperFd), file.fd);
      if selected.Err? {
        DoneCountAppend(events, [DoneCalled(Some(InvalidSkipperFd(selected.error)))]);
        events := events + [DoneCalled(Some(InvalidSkipperFd(selected.error)))];
        assert admissions == DoneCount(events);
        return;
      }
      var id := selected.value;
      var path := ResolveDestination(id, cwd, options.dirpath, options.filename, resolve);
      if !IsAbsolute(id) {
        file.skipperFd := Str(path);
      }
      DoneCountAppend(events, [MkdirsCalled(path)]);
      events := events + [MkdirsCalled(path)];
      phase := MakingDirs(file, path);
      assert admissions == DoneCount(events) + 1;
    }

    /**
     * The directory-creation callback. A failure completes the admission
     * with that failure and no writer is opened; on success the writer and
     * its handlers are set up.
     */
    method OnMkdirs(err: Option<Fault>)
      requires Valid() && phase.MakingDirs?
      modifies this
      ensures Valid() && admissions == old(admissions) && files == old(files)
      ensures err.Some? ==>
        && events == old(events) + [DoneCalled(Some(MkdirsFailed(err.value)))]
        && phase == Idle
      ensures err.None? ==>
        && events == old(events) + [WriterOpened(old(phase).file, old(phase).path)]
        && phase == Writing(old(phase).file, old(phase).path)
    {
      if err.Some? {
        DoneCountAppend(events, [DoneCalled(Some(MkdirsFailed(err.value)))]);
        events := events + [DoneCalled(Some(MkdirsFailed(err.value)))];
        phase := Idle;
      } else {
        DoneCountAppend(events, [WriterOpened(phase.file, phase.path)]);
        events := events + [WriterOpened(phase.file, phase.path)];
        phase := Writing(phase.file, phase.path);
      }
    }

    /**
     * The writer's `finish`: the byte count is taken from the first record
     * for the destination, if any, then `writefile` is emitted and the
     * admission completes without error.
     */
    method OnFinish()
      requires Valid() && phase.Writing?
      modifies this, phase.file
      ensures Valid() && admissions == old(admissions) && phase == Idle
      ensures files == old(files)
      ensures var file := old(phase.file);
        && events == old(events) + [WriteFileEmitted(file), DoneCalled(None)]
        && file.skipperFd == old(file.skipperFd)
        && (FindRecord(files, old(phase.path)).Some? ==>
              file.byteCount == Some(files[FindRecord(files, old(phase.path)).value].total))
        && (FindRecord(files, old(phase.path)).None? ==> file.byteCount == old(file.byteCount))
    {
      var file := phase.file;
      var found := FindRecord(files, phase.path);
      if found.Some? {
        file.byteCount := Some(files[found.value].total);
      }
      DoneCountAppend(events, [WriteFileEmitted(file), DoneCalled(None)]);
      assert [WriteFileEmitted(file), DoneCalled(None)][..1] == [WriteFileEmitted(file)];
      assert DoneCount([WriteFileEmitted(file)]) == 0;
      events := events + [WriteFileEmitted(file), DoneCalled(None)];
      phase := Idle;
    }

    /** `E_EXCEEDS_UPLOAD_LIMIT` from the progress stream completes the admission with that error. */
    method OnLimitExceeded(cause: Fault)
      requires Valid() && phase.Writing?
      modifies this
      ensures Valid() && admissions == old(admissions) && phase == Idle
      ensures files == old(files)
      ensures events == old(events) + [DoneCalled(Some(LimitExceeded(cause)))]
    {
      DoneCountAppend(events, [DoneCalled(Some(LimitExceeded(cause)))]);
      events := events + [DoneCalled(Some(LimitExceeded(cause)))];
      phase := Idle;
    }

    /**
     * A write-stream error for `file`, written to `path`: emitted on the
     * receiver, never passed to `done`, so the admission stays where it is.
     * The handler exists once that writer has been opened, possibly for an
     * earlier file.
     */
    method OnWriterError(file: IncomingFile, path: string, cause: Fault)
      requires Valid() && WriterOpened(file, path) in events
      modifies this
      ensures Valid() && admissions == old(admissions)
      ensures phase == old(phase) && files == old(files)
      ensures events == old(events) + [ErrorEmitted(WriteFailed(path, file.field, cause))]
    {
      DoneCountAppend(events, [ErrorEmitted(WriteFailed(path, file.field, cause))]);
      events := events + [ErrorEmitted(WriteFailed(path, file.field, cause))];
    }

    /** A progress-stream error: handled like a write-stream error. */
    method OnProgressError(file: IncomingFile, path: string, cause: Fault)
      requires Valid() && WriterOpened(file, path) in events
      modifies this
      ensures Valid() && admissions == old(admissions)
      ensures phase == old(phase) && files == old(files)
      ensures events == old(events) + [ErrorEmitted(ProgressFailed(path, file.field, cause))]
    {
      DoneCountAppend(events, [ErrorEmitted(ProgressFailed(path, file.field, cause))]);
      events := events + [ErrorEmitted(ProgressFailed(path, file.field, cause))];
    }

    /**
     * The progress stream rewriting `_files` as it counts bytes; what it
     * stores is its own business, so the new list is taken as given.
     */
    method RecordTotals(records: seq<FileRecord>)
      requires Valid()
      modifies this
      ensures Valid() && admissions == old(admissions)
      ensures files == records && events == old(events) && phase == old(phase)
    {
      files := records;
    }
  }
}
