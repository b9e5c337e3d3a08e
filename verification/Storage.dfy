/**
 Files written with the tmp + fsync + rename protocol, down to what a crash can leave behind.
 JSON text is either a document of the expected shape or unreadable; rename is atomic and durable.
 */
module Storage {
  import opened Options

  datatype Text<+D> = Document(value: D) | Unreadable

  // A file's content; unsynced content does not survive a crash intact.
  datatype Slot<+D> = Slot(text: Text<D>, synced: bool)

  datatype Files<+D> = Files(main: Option<Slot<D>>, tmp: Option<Slot<D>>)

  // Where `atomic_write_json` fails, if it does; a failing write leaves any text in the tmp file.
  datatype Fault<+D> = NoFault | CreateFails | WriteFails(left: Text<D>) | SyncFails | RenameFails

  ghost predicate Durable<D>(f: Files<D>) {
    f.main.Some? ==> f.main.value.synced
  }

  // What the disk may hold after a crash in state `f`.
  ghost predicate AfterCrash<D>(f: Files<D>, after: Files<D>) {
    && SlotAfterCrash(f.main, after.main)
    && SlotAfterCrash(f.tmp, after.tmp)
  }

  ghost predicate SlotAfterCrash<D>(slot: Option<Slot<D>>, after: Option<Slot<D>>) {
    match slot
    case None => after.None?
    case Some(s) => after.Some? && after.value.synced && (s.synced ==> after == slot)
  }

  // The states the disk goes through in one write, first to last.
  function WriteStates<D>(f: Files<D>, value: D, fault: Fault<D>): (states: seq<Files<D>>)
    ensures |states| > 0
  {
    var created := f.(tmp := Some(Slot(Unreadable, false)));
    var written := f.(tmp := Some(Slot(Document(value), false)));
    var synced := f.(tmp := Some(Slot(Document(value), true)));
    var renamed := Files(synced.tmp, None);
    match fault
    case CreateFails => [f]
    case WriteFails(left) => [f, created, f.(tmp := Some(Slot(left, false)))]
    case SyncFails => [f, created, written]
    case RenameFails => [f, created, written, synced]
    case NoFault => [f, created, written, synced, renamed]
  }

  // The lenient reader: what a fresh process sees in the main file.
  function Read<D>(f: Files<D>): Option<D> {
    if f.main.Some? && f.main.value.text.Document? then Some(f.main.value.text.value) else None
  }

  // Interrupted at any sub-step, the protocol leaves the old document or the new one, never a mix
  // and never a half-written file; the new one exactly when the rename was done.
  lemma CrashLeavesOldOrNew<D>(f: Files<D>, value: D, fault: Fault<D>, at: nat, after: Files<D>)
    requires Durable(f) && at < |WriteStates(f, value, fault)|
    requires AfterCrash(WriteStates(f, value, fault)[at], after)
    ensures Durable(after)
    ensures at < 4 ==> Read(after) == Read(f) && after.main == f.main
    ensures at == 4 ==> Read(after) == Some(value)
  {
    assert at == 4 ==> fault.NoFault?;
    assert at < 4 ==> WriteStates(f, value, fault)[at].main == f.main;
  }

  class JsonFile<D> {
    var files: Files<D>
    // Every state the disk has been in; a crash may happen in any of them.
    ghost var passed: seq<Files<D>>

    constructor (initial: Files<D>)
      ensures files == initial && passed == [initial]
    {
      files := initial;
      passed := [initial];
    }

    method AtomicWrite(value: D, fault: Fault<D>) returns (ok: bool)
      modifies this
      ensures ok == fault.NoFault?
      ensures passed == old(passed) + WriteStates(old(files), value, fault)
      ensures files == passed[|passed| - 1]
      ensures ok ==> Read(files) == Some(value) && Durable(files)
      ensures !ok ==> files.main == old(files.main)
    {
      ghost var start := files;
      passed := passed + [files];
      if fault.CreateFails? {
        return false;
      }
      files := files.(tmp := Some(Slot(Unreadable, false)));
      passed := passed + [files];
      var text := if fault.WriteFails? then fault.left else Document(value);
      files := files.(tmp := Some(Slot(text, false)));
      passed := passed + [files];
      if fault.WriteFails? || fault.SyncFails? {
        return false;
      }
      files := files.(tmp := Some(Slot(text, true)));
      passed := passed + [files];
      if fault.RenameFails? {
        return false;
      }
      files := Files(files.tmp, None);
      passed := passed + [files];
      return true;
    }
  }

  // ---- sequence.json -----------------------------------------------------------------------------

  // A JSON value under a device id: an integer, or something that is not one.
  datatype Value = Integer(value: int) | NotAnInteger

  type Entries = map<string, Value>

  function EntriesOf(f: Files<Entries>): Entries {
    var document := Read(f);
    if document.Some? then document.value else map[]
  }

  // serde_json's `as_i64`.
  function StoredNext(entries: Entries, deviceId: string): Option<int> {
    if deviceId in entries && entries[deviceId].Integer?
      && -0x8000_0000_0000_0000 <= entries[deviceId].value < 0x8000_0000_0000_0000
    then Some(entries[deviceId].value)
    else None
  }

  class FileSequenceStore {
    const file: JsonFile<Entries>

    constructor (initial: Files<Entries>)
      ensures fresh(file) && file.files == initial
    {
      file := new JsonFile(initial);
    }

    ghost function Contents(): Entries
      reads this, file
    {
      EntriesOf(file.files)
    }

    method Load(deviceId: string) returns (next: Option<int>)
      ensures next == StoredNext(Contents(), deviceId)
    {
      var entries := EntriesOf(file.files);
      if deviceId !in entries {
        return None;
      }
      match entries[deviceId]
      case Integer(value) =>
        next := if -0x8000_0000_0000_0000 <= value < 0x8000_0000_0000_0000 then Some(value) else None;
      case NotAnInteger => next := None;
    }

    method Store(deviceId: string, next: nat, fault: Fault<Entries>) returns (ok: bool)
      modifies file
      ensures ok == fault.NoFault?
      ensures Contents() == if ok then old(Contents())[deviceId := Integer(next)] else old(Contents())
      ensures old(Durable(file.files)) ==> Durable(file.files)
      ensures file.passed == old(file.passed) + WriteStates(old(file.files),
                old(Contents())[deviceId := Integer(next)], fault)
    {
      var all := EntriesOf(file.files);
      all := all[deviceId := Integer(next)];
      ok := file.AtomicWrite(all, fault);
    }

    method Remove(deviceId: string, fault: Fault<Entries>) returns (ok: bool)
      modifies file
      ensures ok == (deviceId in old(Contents()) ==> fault.NoFault?)
      ensures Contents() == if ok then old(Contents()) - {deviceId} else old(Contents())
      ensures deviceId !in old(Contents()) ==> file.files == old(file.files)
      ensures old(Durable(file.files)) ==> Durable(file.files)
    {
      var all := EntriesOf(file.files);
      if deviceId in all {
        ok := file.AtomicWrite(all - {deviceId}, fault);
      } else {
        ok := true;
        assert all - {deviceId} == all;
      }
    }
  }

  // A crash at any moment of a store leaves every other device's entry as it was, and this device's
  // entry old or new.
  lemma CrashedStoreTouchesOneDevice(f: Files<Entries>, deviceId: string, next: nat, fault: Fault<Entries>, at: nat,
                                     after: Files<Entries>, other: string)
    requires Durable(f) && at < |WriteStates(f, EntriesOf(f)[deviceId := Integer(next)], fault)|
    requires AfterCrash(WriteStates(f, EntriesOf(f)[deviceId := Integer(next)], fault)[at], after)
    ensures other != deviceId ==> StoredNext(EntriesOf(after), other) == StoredNext(EntriesOf(f), other)
    ensures next < 0x8000_0000_0000_0000 ==>
              StoredNext(EntriesOf(after), deviceId) == if at < 4 then StoredNext(EntriesOf(f), deviceId)
                else Some(next)
  {
    CrashLeavesOldOrNew(f, EntriesOf(f)[deviceId := Integer(next)], fault, at, after);
  }
}
