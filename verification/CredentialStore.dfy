/** Credentials in three layers: the native keyring, `auth.json`, and the `auth.json.migrated`
    that a migration leaves behind. */
module CredentialStore {
  import opened Protocol

  datatype Credential =
    | ApiKey(key: string)
    | OAuth(accessToken: string, refreshToken: string, expiresAt: string, account: Option<string>,
            apiBaseUrl: Option<string>, projectId: Option<string>)

  function Bearer(credential: Credential): string {
    match credential
    case ApiKey(key) => key
    case OAuth(accessToken, _, _, _, _, _) => accessToken
  }

  /** A JSON file: missing, unreadable, or a store. */
  datatype Layer = Absent | Corrupt | Loaded(providers: map<string, Credential>)

  /** A write can also fail after the file has been replaced, on setting its permissions. */
  datatype Write = Written | WrittenButFailed | NotWritten

  /** With `hasPath` false there is no home directory, and both files are absent. */
  datatype State = State(
    keyringEnabled: bool, keyring: map<string, string>, hasPath: bool, json: Layer, migrated: Layer)

  // ----- One file -----

  function Providers(layer: Layer): map<string, Credential> {
    if layer.Loaded? then layer.providers else map[]
  }

  function Changed(layer: Layer, next: Layer, write: Write): Layer {
    if write.NotWritten? then layer else next
  }

  /** A corrupt file is never overwritten. */
  function SaveCredentialAt(layer: Layer, provider: string, credential: Credential, write: Write): (Layer, bool) {
    if layer.Corrupt? then (layer, false)
    else (Changed(layer, Loaded(Providers(layer)[provider := credential]), write), write.Written?)
  }

  /** Removing the last provider removes the file. */
  function DeleteProviderFromPath(layer: Layer, provider: string, write: Write): (Layer, bool) {
    match layer
    case Absent => (Absent, true)
    case Corrupt => (Corrupt, false)
    case Loaded(providers) =>
      if provider !in providers then (layer, true)
      else
        var rest := providers - {provider};
        (Changed(layer, if rest == map[] then Absent else Loaded(rest), write), write.Written?)
  }

  // ----- Specification -----

  /** What the two files say together: `auth.json` shadows `auth.json.migrated`. */
  function View(s: State): map<string, Credential> {
    Providers(s.migrated) + Providers(s.json)
  }

  function Lookup(s: State, provider: string): Option<string> {
    if s.keyringEnabled && provider in s.keyring then Some(s.keyring[provider])
    else if provider in View(s) then Some(Bearer(View(s)[provider]))
    else None
  }

  function AfterSet(s: State, provider: string, key: string, keyringFails: bool, write: Write): (State, bool) {
    var stored := s.keyringEnabled && !keyringFails;
    var s1 := if stored then s.(keyring := s.keyring[provider := key]) else s;
    if !s.hasPath then (s1, stored)
    else
      var saved := SaveCredentialAt(s.json, provider, ApiKey(key), write);
      (s1.(json := saved.0), stored || saved.1)
  }

  function AfterSetCredential(s: State, provider: string, credential: Credential, write: Write): (State, bool) {
    if !s.hasPath then (s, false)
    else
      var saved := SaveCredentialAt(s.json, provider, credential, write);
      (s.(json := saved.0), saved.1)
  }

  function AfterDelete(s: State, provider: string, keyringFails: bool, json: Write, migrated: Write): (State, bool) {
    var fromKeyring := s.keyringEnabled && !keyringFails;
    var s1 := if fromKeyring then s.(keyring := s.keyring - {provider}) else s;
    var first := DeleteProviderFromPath(s.json, provider, json);
    var second := DeleteProviderFromPath(s.migrated, provider, migrated);
    (s1.(json := first.0, migrated := second.0), (fromKeyring || !s.keyringEnabled) && first.1 && second.1)
  }

  predicate ShouldMigrate(s: State) {
    s.keyringEnabled && s.hasPath && s.json.Loaded? && s.json.providers != map[] && s.migrated.Absent?
  }

  /** The keyring once these providers have been migrated: OAuth entries are left out. */
  function MigratedKeyring(s: State, done: set<string>): map<string, string> {
    s.keyring + map p | p in done && p in Providers(s.json) && Providers(s.json)[p].ApiKey? :: Providers(s.json)[p].key
  }

  predicate IsKey(layer: Layer, provider: string) {
    provider in Providers(layer) && Providers(layer)[provider].ApiKey?
  }

  function GetCredentialOf(s: State, provider: string): Option<Credential> {
    var store := if s.json.Loaded? then Providers(s.json) else Providers(s.migrated);
    if provider in store then Some(store[provider]) else None
  }

  // ----- The code -----

  datatype Migration = Migrated(count: nat) | KeyringFailed(provider: string) | RenameFailed

  class Store {
    const keyringEnabled: bool
    const hasPath: bool
    var keyring: map<string, string>
    var json: Layer
    var migrated: Layer

    ghost predicate Valid()
      reads this
    {
      !hasPath ==> json.Absent? && migrated.Absent?
    }

    ghost function Now(): State
      reads this
    {
      State(keyringEnabled, keyring, hasPath, json, migrated)
    }

    constructor (keyringEnabled: bool, hasPath: bool, json: Layer, migrated: Layer, keyring: map<string, string>)
      requires !hasPath ==> json.Absent? && migrated.Absent?
      ensures Valid() && Now() == State(keyringEnabled, keyring, hasPath, json, migrated)
    {
      this.keyringEnabled, this.hasPath := keyringEnabled, hasPath;
      this.json, this.migrated, this.keyring := json, migrated, keyring;
    }

    /** A keyring that cannot be read counts as empty. */
    method Get(provider: string, keyringUnreadable: bool) returns (bearer: Option<string>)
      ensures bearer == Lookup(if keyringUnreadable then Now().(keyring := map[]) else Now(), provider)
    {
      if keyringEnabled && !keyringUnreadable && provider in keyring {
        return Some(keyring[provider]);
      }
      if json.Loaded? && provider in json.providers {
        return Some(Bearer(json.providers[provider]));
      }
      if migrated.Loaded? && provider in migrated.providers {
        return Some(Bearer(migrated.providers[provider]));
      }
      return None;
    }

    method GetCredential(provider: string) returns (credential: Option<Credential>)
      ensures credential == GetCredentialOf(Now(), provider)
    {
      if json.Loaded? {
        return if provider in json.providers then Some(json.providers[provider]) else None;
      }
      if migrated.Loaded? {
        return if provider in migrated.providers then Some(migrated.providers[provider]) else None;
      }
      return None;
    }

    method ListProviders() returns (providers: set<string>)
      ensures providers == View(Now()).Keys
    {
      providers := {};
      if json.Loaded? {
        providers := providers + json.providers.Keys;
      }
      if migrated.Loaded? {
        providers := providers + migrated.providers.Keys;
      }
    }

    method Set(provider: string, key: string, keyringFails: bool, write: Write) returns (ok: bool)
      requires Valid()
      modifies this
      ensures Valid() && (Now(), ok) == AfterSet(old(Now()), provider, key, keyringFails, write)
    {
      var stored := keyringEnabled && !keyringFails;
      if stored {
        keyring := keyring[provider := key];
      }
      ok := stored;
      if hasPath {
        var saved := SaveCredentialAt(json, provider, ApiKey(key), write);
        json := saved.0;
        ok := stored || saved.1;
      }
    }

    method SetCredential(provider: string, credential: Credential, write: Write) returns (ok: bool)
      requires Valid()
      modifies this
      ensures Valid() && (Now(), ok) == AfterSetCredential(old(Now()), provider, credential, write)
    {
      if !hasPath {
        return false;
      }
      var saved := SaveCredentialAt(json, provider, credential, write);
      json := saved.0;
      return saved.1;
    }

    /** Every backend is tried, whatever fails; the first failure is reported. */
    method Delete(provider: string, keyringFails: bool, jsonWrite: Write, migratedWrite: Write) returns (ok: bool)
      requires Valid()
      modifies this
      ensures Valid() && (Now(), ok) == AfterDelete(old(Now()), provider, keyringFails, jsonWrite, migratedWrite)
    {
      ok := true;
      if keyringEnabled {
        if keyringFails {
          ok := false;
        } else {
          keyring := keyring - {provider};
        }
      }
      var first := DeleteProviderFromPath(json, provider, jsonWrite);
      json := first.0;
      if !first.1 {
        ok := false;
      }
      var second := DeleteProviderFromPath(migrated, provider, migratedWrite);
      migrated := second.0;
      if !second.1 {
        ok := false;
      }
    }

    /** Providers in any order, as a hash map gives them; `refused` are those whose keyring
        write fails. The count includes the OAuth entries that stay behind. */
    method MigrateFromJson(refused: set<string>, renameFails: bool) returns (result: Migration)
      requires Valid()
      modifies this
      ensures Valid()
      ensures !ShouldMigrate(old(Now())) ==> result == Migrated(0) && Now() == old(Now())
      ensures result.KeyringFailed? ==>
        && IsKey(old(json), result.provider) && result.provider in refused
        && exists done ::
             && (forall p :: p in done && IsKey(old(json), p) ==> p !in refused)
             && Now() == old(Now()).(keyring := MigratedKeyring(old(Now()), done))
      ensures ShouldMigrate(old(Now())) && !result.KeyringFailed? ==>
        var s := old(Now()).(keyring := MigratedKeyring(old(Now()), old(json).providers.Keys));
        if renameFails then result == RenameFailed && Now() == s
        else result == Migrated(|old(json).providers|) && Now() == s.(json := Absent, migrated := old(json))
      ensures result.KeyringFailed? <==>
        ShouldMigrate(old(Now())) && exists p :: p in refused && IsKey(old(json), p)
    {
      if !(keyringEnabled && hasPath && json.Loaded? && migrated.Absent? && json.providers != map[]) {
        return Migrated(0);
      }
      var store := json.providers;
      ghost var start := Now();
      var todo := store.Keys;
      while todo != {}
        invariant todo <= store.Keys
        invariant Now() == start.(keyring := MigratedKeyring(start, store.Keys - todo))
        invariant forall p :: p in store.Keys - todo && p in refused ==> !IsKey(start.json, p)
        decreases |todo|
      {
        var provider :| provider in todo;
        MigrateOne(start, todo, provider);
        if store[provider].ApiKey? {
          if provider in refused {
            return KeyringFailed(provider);
          }
          keyring := keyring[provider := store[provider].key];
        }
        todo := todo - {provider};
      }
      assert store.Keys - {} == store.Keys;
      if renameFails {
        return RenameFailed;
      }
      json, migrated := Absent, json;
      return Migrated(|store|);
    }
  }

  lemma MigrateOne(s: State, todo: set<string>, provider: string)
    requires provider in Providers(s.json) && provider in todo
    ensures var names := Providers(s.json).Keys;
            var before, after := MigratedKeyring(s, names - todo), MigratedKeyring(s, names - (todo - {provider}));
            if Providers(s.json)[provider].ApiKey? then after == before[provider := Providers(s.json)[provider].key]
            else after == before
  {
    var names := Providers(s.json).Keys;
    assert names - (todo - {provider}) == names - todo + {provider};
  }

  // ----- With the keyring disabled: one plain map -----

  /** An operation, with the outcome of each write it may make. */
  datatype Op =
    | SetOp(provider: string, key: string, write: Write)
    | SetCredentialOp(provider: string, credential: Credential, write: Write)
    | DeleteOp(provider: string, json: Write, migrated: Write)

  function Apply(s: State, op: Op): (State, bool) {
    match op
    case SetOp(provider, key, write) => AfterSet(s, provider, key, false, write)
    case SetCredentialOp(provider, credential, write) => AfterSetCredential(s, provider, credential, write)
    case DeleteOp(provider, json, migrated) => AfterDelete(s, provider, false, json, migrated)
  }

  function ApplyAll(s: State, ops: seq<Op>): State {
    if ops == [] then s else Apply(ApplyAll(s, ops[..|ops| - 1]), ops[|ops| - 1]).0
  }

  /** The same on a plain map, which may be read-only for insertions. */
  function Plain(m: map<string, Credential>, writable: bool, op: Op): map<string, Credential> {
    match op
    case SetOp(provider, key, write) =>
      if writable && !write.NotWritten? then m[provider := ApiKey(key)] else m
    case SetCredentialOp(provider, credential, write) =>
      if writable && !write.NotWritten? then m[provider := credential] else m
    case DeleteOp(provider, _, _) => m - {provider}
  }

  function PlainAll(m: map<string, Credential>, writable: bool, ops: seq<Op>): map<string, Credential> {
    if ops == [] then m else Plain(PlainAll(m, writable, ops[..|ops| - 1]), writable, ops[|ops| - 1])
  }

  lemma DeletedFromLayer(layer: Layer, provider: string, write: Write)
    ensures var next := DeleteProviderFromPath(layer, provider, write);
            && (next.1 || write.Written? ==> Providers(next.0) == Providers(layer) - {provider})
            && next.0.Corrupt? == layer.Corrupt? && (layer.Absent? ==> next.0.Absent?)
            && (write.Written? ==> next.1 == !layer.Corrupt?)
  {
  }

  predicate Writable(s: State) {
    s.hasPath && !s.json.Corrupt?
  }

  predicate ValidState(s: State) {
    !s.hasPath ==> s.json.Absent? && s.migrated.Absent?
  }

  /** A delete whose write fails on a file that holds the provider. */
  predicate DeleteMisses(s: State, op: Op) {
    && op.DeleteOp?
    && ((op.json.NotWritten? && op.provider in Providers(s.json))
        || (op.migrated.NotWritten? && op.provider in Providers(s.migrated)))
  }

  /** One operation on the files is one on the map, whatever writes fail, exactly unless a
      delete misses a file that holds the provider. */
  lemma ApplyRefinesPlainIff(s: State, op: Op)
    requires !s.keyringEnabled && ValidState(s)
    ensures var next := Apply(s, op);
            && (View(next.0) == Plain(View(s), Writable(s), op) <==> !DeleteMisses(s, op))
            && ValidState(next.0) && !next.0.keyringEnabled && Writable(next.0) == Writable(s)
  {
    if op.DeleteOp? {
      DeleteRefinesIff(s, op);
    }
  }

  lemma DeleteRefinesIff(s: State, op: Op)
    requires !s.keyringEnabled && ValidState(s) && op.DeleteOp?
    ensures var next := Apply(s, op);
            && (View(next.0) == View(s) - {op.provider} <==> !DeleteMisses(s, op))
            && ValidState(next.0) && !next.0.keyringEnabled && Writable(next.0) == Writable(s)
  {
    DeletedFromLayer(s.json, op.provider, op.json);
    DeletedFromLayer(s.migrated, op.provider, op.migrated);
    assert op.provider in View(Apply(s, op).0) <==> DeleteMisses(s, op);
  }

  /** It reports success exactly if the files it needs are there and readable, and each write
      that it made succeeded. */
  lemma ApplySucceedsIff(s: State, op: Op)
    requires !s.keyringEnabled && ValidState(s)
    ensures Apply(s, op).1 <==>
      if op.DeleteOp? then
        && !s.json.Corrupt? && !s.migrated.Corrupt?
        && (op.provider in Providers(s.json) ==> op.json.Written?)
        && (op.provider in Providers(s.migrated) ==> op.migrated.Written?)
      else Writable(s) && op.write.Written?
  {
  }

  /** A delete that removes the provider from `auth.json` only brings back what
      `auth.json.migrated` has for it. */
  lemma HalfDeleteBringsBackMigrated(s: State, provider: string, migrated: Credential)
    requires !s.keyringEnabled && s.json.Loaded? && provider in s.json.providers
    requires s.migrated.Loaded? && provider in s.migrated.providers && s.migrated.providers[provider] == migrated
    ensures var next := Apply(s, DeleteOp(provider, Written, NotWritten));
            !next.1 && Lookup(next.0, provider) == Some(Bearer(migrated))
  {
    DeletedFromLayer(s.json, provider, Written);
  }

  predicate NoDeleteMisses(s: State, ops: seq<Op>) {
    if ops == [] then true
    else
      var n := |ops| - 1;
      NoDeleteMisses(s, ops[..n]) && !DeleteMisses(ApplyAll(s, ops[..n]), ops[n])
  }

  /** Any sequence of operations, with any writes failing except that no delete misses a file,
      behaves like one plain map, to `get` and to `list_providers`. */
  lemma {:induction false} FilesRefineOneMap(s: State, ops: seq<Op>, provider: string)
    requires !s.keyringEnabled && ValidState(s) && NoDeleteMisses(s, ops)
    ensures var end := ApplyAll(s, ops);
            var m := PlainAll(View(s), Writable(s), ops);
            && View(end) == m
            && Lookup(end, provider) == (if provider in m then Some(Bearer(m[provider])) else None)
            && ValidState(end) && !end.keyringEnabled && Writable(end) == Writable(s)
    decreases |ops|
  {
    if ops != [] {
      var n := |ops| - 1;
      FilesRefineOneMap(s, ops[..n], provider);
      ApplyRefinesPlainIff(ApplyAll(s, ops[..n]), ops[n]);
    }
  }

  // ----- Migration -----

  /** Where the keyring already has an entry for a migrated key, it is the same. */
  predicate Agrees(s: State, done: set<string>) {
    forall p :: p in done && p in s.keyring && p in Providers(s.json) && Providers(s.json)[p].ApiKey?
      ==> s.keyring[p] == Providers(s.json)[p].key
  }

  /** After any part of a migration `get` is as before exactly if the keyring did not
      disagree with the part migrated. */
  lemma MigrationKeepsLookupIff(s: State, done: set<string>)
    requires s.keyringEnabled
    ensures (forall q :: Lookup(s.(keyring := MigratedKeyring(s, done)), q) == Lookup(s, q)) <==> Agrees(s, done)
  {
    var next := s.(keyring := MigratedKeyring(s, done));
    if forall q :: Lookup(next, q) == Lookup(s, q) {
      forall p | p in done && p in s.keyring && p in Providers(s.json) && Providers(s.json)[p].ApiKey?
        ensures s.keyring[p] == Providers(s.json)[p].key
      {
        assert Lookup(next, p) == Lookup(s, p);
      }
    }
  }

  /** A migration is due whenever the keyring works, `auth.json` holds something and none was done
      before; it leaves every API key in the keyring, the rest of the keyring as it was, and all of
      `auth.json` in `auth.json.migrated`. */
  lemma MigrationIsDueAndComplete(s: State, provider: string)
    requires s.keyringEnabled && s.hasPath && s.json.Loaded? && s.json.providers != map[] && s.migrated.Absent?
    ensures ShouldMigrate(s)
    ensures var keyring := MigratedKeyring(s, s.json.providers.Keys);
            if provider in s.json.providers && s.json.providers[provider].ApiKey? then
              provider in keyring && keyring[provider] == s.json.providers[provider].key
            else
              (provider in keyring <==> provider in s.keyring)
              && (provider in keyring ==> keyring[provider] == s.keyring[provider])
  {
  }

  /** A file that cannot be read is never touched, and the attempt fails. */
  lemma CorruptFileIsLeftAlone(provider: string, credential: Credential, write: Write)
    ensures SaveCredentialAt(Corrupt, provider, credential, write) == (Corrupt, false)
    ensures DeleteProviderFromPath(Corrupt, provider, write) == (Corrupt, false)
  {
  }

  /** A file goes away exactly when its last provider is deleted. */
  lemma FileIsRemovedIff(layer: Layer, provider: string)
    requires layer.Loaded?
    ensures DeleteProviderFromPath(layer, provider, Written).0.Absent?
       <==> layer.providers.Keys == {provider}
  {
    if layer.providers.Keys == {provider} {
      assert layer.providers - {provider} == map[];
    } else if provider in layer.providers {
      var other :| other in layer.providers && other != provider;
      assert other in layer.providers - {provider};
    }
  }

  /** The rename that completes a migration changes no lookup, and there is no second one. */
  lemma RenameKeepsLookup(s: State, provider: string)
    requires ShouldMigrate(s)
    ensures var next := s.(json := Absent, migrated := s.json);
            Lookup(next, provider) == Lookup(s, provider) && !ShouldMigrate(next)
  {
  }

  /** Migrating an OAuth entry and then setting any other key hides the entry from
      `get_credential`, hence from the refresh, though `get` still finds its token. */
  lemma MigrationThenSetHidesOAuth(s: State, provider: string, other: string, key: string)
    requires ShouldMigrate(s) && provider in s.json.providers && s.json.providers[provider].OAuth?
    requires provider !in s.keyring && other != provider
    ensures GetCredentialOf(s, provider) == Some(s.json.providers[provider])
    ensures var moved := s.(keyring := MigratedKeyring(s, s.json.providers.Keys), json := Absent, migrated := s.json);
            var next := AfterSet(moved, other, key, false, Written).0;
            && GetCredentialOf(moved, provider) == GetCredentialOf(s, provider)
            && GetCredentialOf(next, provider) == None
            && Lookup(next, provider) == Lookup(s, provider) == Some(s.json.providers[provider].accessToken)
  {
  }

  // ----- What is read back -----

  /** `get_credential` falls back per file, `get` per provider: they agree exactly if no
      entry of `auth.json.migrated` is hidden behind an `auth.json` without it. */
  lemma GetCredentialAgreesIff(s: State, provider: string)
    ensures GetCredentialOf(s, provider) == (if provider in View(s) then Some(View(s)[provider]) else None)
       <==> !(s.json.Loaded? && provider !in s.json.providers && provider in Providers(s.migrated))
  {
  }

  /** A structured credential that was stored is read back, as the refresh needs; `get` sees
      its bearer exactly if the keyring has nothing else for the provider. */
  lemma StoredCredentialIsReadBack(s: State, provider: string, credential: Credential, write: Write)
    requires AfterSetCredential(s, provider, credential, write).1
    ensures var next := AfterSetCredential(s, provider, credential, write).0;
            && GetCredentialOf(next, provider) == Some(credential)
            && (Lookup(next, provider) == Some(Bearer(credential)) <==>
                  !s.keyringEnabled || provider !in s.keyring || s.keyring[provider] == Bearer(credential))
            && forall q :: q != provider ==> Lookup(next, q) == Lookup(s, q)
  {
  }

  /** A key that was stored is read back exactly if it reached the keyring or the keyring
      has no other key for the provider; other providers are not affected. */
  lemma StoredKeyIsReadBackIff(s: State, provider: string, key: string, keyringFails: bool, write: Write)
    requires AfterSet(s, provider, key, keyringFails, write).1
    ensures var next := AfterSet(s, provider, key, keyringFails, write).0;
            && (Lookup(next, provider) == Some(key) <==>
                  !(s.keyringEnabled && keyringFails && provider in s.keyring && s.keyring[provider] != key))
            && forall q :: q != provider ==> Lookup(next, q) == Lookup(s, q)
  {
  }

  /** A key is mirrored into `auth.json` even when the keyring takes it; either is enough. */
  lemma KeyIsMirrored(s: State, provider: string, key: string, keyringFails: bool, write: Write)
    ensures var next := AfterSet(s, provider, key, keyringFails, write);
            && View(next.0) == (if Writable(s) && !write.NotWritten? then View(s)[provider := ApiKey(key)] else View(s))
            && next.0.keyring == (if s.keyringEnabled && !keyringFails then s.keyring[provider := key] else s.keyring)
            && (next.1 <==> (s.keyringEnabled && !keyringFails) || (Writable(s) && write.Written?))
            && next.0.migrated == s.migrated
  {
  }

  /** Deleting tries every layer, whatever fails in the others. */
  lemma DeleteTriesEveryLayer(s: State, provider: string, keyringFails: bool, json: Write, migrated: Write)
    ensures var next := AfterDelete(s, provider, keyringFails, json, migrated).0;
            && (json.Written? ==> provider !in Providers(next.json))
            && (migrated.Written? ==> provider !in Providers(next.migrated))
            && (s.keyringEnabled && !keyringFails ==> provider !in next.keyring)
            && (!s.keyringEnabled || keyringFails ==> next.keyring == s.keyring)
  {
    DeletedFromLayer(s.json, provider, json);
    DeletedFromLayer(s.migrated, provider, migrated);
  }

  /** After a delete that reports success nothing is left of the provider, and nothing else
      has changed. */
  lemma DeletedIsGone(s: State, provider: string, keyringFails: bool, json: Write, migrated: Write)
    requires AfterDelete(s, provider, keyringFails, json, migrated).1
    ensures var next := AfterDelete(s, provider, keyringFails, json, migrated).0;
            && Lookup(next, provider) == None && GetCredentialOf(next, provider) == None
            && View(next) == View(s) - {provider}
            && forall q :: q != provider ==> Lookup(next, q) == Lookup(s, q)
  {
    DeletedFromLayer(s.json, provider, json);
    DeletedFromLayer(s.migrated, provider, migrated);
    assert View(AfterDelete(s, provider, keyringFails, json, migrated).0) == View(s) - {provider};
  }
}
