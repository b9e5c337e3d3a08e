/** config.json: the in-memory configuration and the file it is loaded from and written to. */
module ConfigStorage {
  import opened Options
  import opened Model
  import opened Storage

  datatype StoredConnection = StoredConnection(
    baseUrl: string, deviceId: string, deviceName: string, scopes: seq<string>,
    pairingNextSequence: nat, liveDeskEnabled: bool)

  datatype CoreConfig = CoreConfig(
    version: nat, privacy: PrivacyConfig, connection: Option<StoredConnection>,
    mediaProvider: string, credentialBackend: Option<string>)

  const DEFAULT_CONFIG := CoreConfig(
    1,
    PrivacyConfig(Defaults(Share, Hide, Share), [], [], false, false, Sources(true, true)),
    None, "auto", None)

  // The whole-schema check: the version literal and the non-empty refinements.
  predicate IsValid(c: CoreConfig) {
    && c.version == 1
    && (forall i :: 0 <= i < |c.privacy.rules| ==> c.privacy.rules[i].appId != "")
    && (forall i :: 0 <= i < |c.privacy.mappings| ==>
         c.privacy.mappings[i].from != "" && c.privacy.mappings[i].to != "")
  }

  datatype UpdateError = Invalid | Io

  // What a fresh process loads: a missing, unreadable or invalid file gives the defaults.
  function Load(f: Files<CoreConfig>): CoreConfig {
    var document := Read(f);
    if document.Some? && IsValid(document.value) then document.value else DEFAULT_CONFIG
  }

  class ConfigStore {
    const file: JsonFile<CoreConfig>
    var config: CoreConfig
    // The copy a corrupt file is preserved in.
    var backup: Option<Slot<CoreConfig>>
    // The configurations the change listeners were called with, oldest first.
    var notified: seq<CoreConfig>

    // Memory is what a fresh load of a readable disk yields.
    ghost predicate Coherent()
      reads this, file
    {
      config == Load(file.files) && IsValid(config) && Durable(file.files)
    }

    // A file that cannot be read at all gives the defaults without a backup; a corrupt one is
    // copied, if the copy succeeds. Nothing else is written.
    constructor (file: JsonFile<CoreConfig>, readable: bool, copies: bool)
      requires Durable(file.files)
      ensures this.file == file && IsValid(config) && notified == []
      ensures readable ==> Coherent()
      ensures !readable ==> config == DEFAULT_CONFIG
      ensures var corrupt := readable && file.files.main.Some?
                && (Read(file.files).None? || !IsValid(Read(file.files).value));
              && backup == (if corrupt && copies then file.files.main else None)
              && (corrupt ==> config == DEFAULT_CONFIG)
    {
      this.file := file;
      var document := if readable then Read(file.files) else None;
      config := DEFAULT_CONFIG;
      backup := None;
      notified := [];
      if document.Some? && IsValid(document.value) {
        config := document.value;
      } else if readable && file.files.main.Some? && copies {
        backup := file.files.main;
      }
    }

    // Validate, write, then swap, then tell the listeners: memory and disk move together or not at
    // all, and one update that went through makes them what a fresh load yields again.
    method Update(mutate: CoreConfig -> CoreConfig, fault: Fault<CoreConfig>)
      returns (r: Result<CoreConfig, UpdateError>)
      requires IsValid(config) && Durable(file.files)
      modifies this`config, this`notified, file
      ensures IsValid(config) && Durable(file.files)
      ensures old(Coherent()) || r.Ok? ==> Coherent()
      ensures r == if !IsValid(mutate(old(config))) then Err(Invalid)
                   else if !fault.NoFault? then Err(Io)
                   else Ok(mutate(old(config)))
      ensures r.Ok? ==> config == r.value && notified == old(notified) + [r.value]
      ensures r.Err? ==> config == old(config) && notified == old(notified) && file.files.main == old(file.files.main)
      ensures r == Err(Invalid) ==> file.passed == old(file.passed)
      // killed in any state the disk passed through, the next process loads the old or the new configuration
      ensures r != Err(Invalid) ==>
                file.passed == old(file.passed) + WriteStates(old(file.files), mutate(old(config)), fault)
    {
      var next := mutate(config);
      if !IsValid(next) {
        return Err(Invalid);
      }
      var ok := file.AtomicWrite(next, fault);
      if !ok {
        return Err(Io);
      }
      config := next;
      notified := notified + [next];
      return Ok(next);
    }
  }

  // A process killed at any sub-step of an update restarts with the old configuration or the new
  // one; in particular it never restarts publishing from a torn file.
  lemma RestartAfterKilledUpdate(f: Files<CoreConfig>, next: CoreConfig, fault: Fault<CoreConfig>, at: nat,
      after: Files<CoreConfig>)
    requires Durable(f) && IsValid(next) && at < |WriteStates(f, next, fault)|
    requires AfterCrash(WriteStates(f, next, fault)[at], after)
    ensures Load(after) == if at < 4 then Load(f) else next
  {
    CrashLeavesOldOrNew(f, next, fault, at, after);
  }
}
