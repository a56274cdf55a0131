/**
 * The credential vault `BaseAuth`: a handle on the database (the `auth` table with the
 * public key, the `providers` table of encrypted credentials), the loaded key pair, the
 * five table operations and `connect`, which registers a live connection for every
 * stored credential whose service the provider registry knows.
 */
module Vault {

  import opened Wrappers
  import opened Values
  import opened Cipher
  import opened AuthFormat
  import opened VaultTable
  import opened Connections

  /** The two tables of the vault database. */
  class Database {
    var auth: seq<PublicKey>
    var providers: seq<Row>

    /** The tables `create_db` writes: one public-key row and no credentials. */
    constructor (pub: PublicKey)
      ensures auth == [pub] && providers == []
    {
      auth := [pub];
      providers := [];
    }
  }

  /** The private key `connect` is given: none at all, text that is not a PEM private key, or a loadable key. */
  datatype KeyMaterial = NoKey | Unreadable | Pem(key: PrivateKey)

  // ------------------------------------------------------------ connect planning

  /** A connection `connect` registers: the service name and the constructor arguments. */
  datatype Registration = Registration(name: string, spec: ConnSpec)

  /** What `connect` does with one decrypted credential. */
  datatype Step = Skip | Register(reg: Registration) | Refuse(error: VaultError)

  /**
   * One iteration of the `connect` loop: a service the registry does not know is skipped;
   * otherwise the credential is validated against the provider's auth schema (a `str`
   * field refuses `None`) and the connection's constructor arguments are taken from it.
   */
  function StepFor(cred: Cred, registry: map<string, ProviderKind>): (s: Step)
    ensures s.Skip? <==> cred.serviceName !in registry
    ensures s.Register? ==> s.reg.name == cred.serviceName
    ensures s.Register? && s.reg.spec.AWSSpec? ==>
      && registry[cred.serviceName] == AWSProvider
      && Some(s.reg.spec.accessKey) == cred.accessKey && Some(s.reg.spec.secretAccessKey) == cred.secretAccessKey
      && Some(s.reg.spec.awsSetting) == cred.otherSetting
    ensures s.Register? && s.reg.spec.OpenAISpec? ==>
      && registry[cred.serviceName] == OpenAIProvider
      && Some(s.reg.spec.apiKey) == cred.apiKey && s.reg.spec.openaiSetting == cred.otherSetting
  {
    if cred.serviceName !in registry then Skip
    else match registry[cred.serviceName]
      case AWSProvider =>
        if cred.accessKey.None? || cred.secretAccessKey.None? then Refuse(SchemaMismatch(cred.serviceName))
        else if cred.otherSetting.None? then Refuse(MissingSettings(cred.serviceName))
        else Register(Registration(cred.serviceName,
                                   AWSSpec(cred.accessKey.value, cred.secretAccessKey.value, cred.otherSetting.value)))
      case OpenAIProvider =>
        if cred.apiKey.None? then Refuse(SchemaMismatch(cred.serviceName))
        else Register(Registration(cred.serviceName, OpenAISpec(cred.apiKey.value, cred.otherSetting)))
  }

  /** The registrations `connect` makes for `creds`, in order, and the error that stopped it, if any. */
  datatype Plan = Plan(regs: seq<Registration>, failure: Option<VaultError>)

  function PlanFor(creds: seq<Cred>, registry: map<string, ProviderKind>): (p: Plan)
    ensures |p.regs| <= |creds|
    ensures p.failure.None? <==> forall k :: 0 <= k < |creds| ==> !StepFor(creds[k], registry).Refuse?
  {
    if creds == [] then Plan([], None)
    else
      var p := PlanFor(creds[..|creds| - 1], registry);
      if p.failure.Some? then p
      else match StepFor(creds[|creds| - 1], registry)
        case Skip => p
        case Register(reg) => Plan(p.regs + [reg], None)
        case Refuse(e) => Plan(p.regs, Some(e))
  }

  /** The connection arguments in force per name after `regs`: a later registration replaces an earlier one. */
  function Latest(regs: seq<Registration>): map<string, ConnSpec>
  {
    if regs == [] then map[]
    else Latest(regs[..|regs| - 1])[regs[|regs| - 1].name := regs[|regs| - 1].spec]
  }

  /** `connect` registers only names the registry knows. */
  lemma {:induction false} PlanRegistersKnownOnly(creds: seq<Cred>, registry: map<string, ProviderKind>)
    ensures forall reg :: reg in PlanFor(creds, registry).regs ==> reg.name in registry
  {
    if creds != [] {
      PlanRegistersKnownOnly(creds[..|creds| - 1], registry);
    }
  }

  /** A credential of a service outside the registry changes nothing `connect` does. */
  lemma SkipsUnknown(creds: seq<Cred>, cred: Cred, registry: map<string, ProviderKind>)
    requires cred.serviceName !in registry
    ensures PlanFor(creds + [cred], registry) == PlanFor(creds, registry)
  {
    assert (creds + [cred])[..|creds + [cred]| - 1] == creds;
  }

  /** The arguments in force for a name are those of its last registration. */
  lemma {:induction false} LatestIsLast(regs: seq<Registration>, name: string)
    ensures name in Latest(regs) <==> exists i :: 0 <= i < |regs| && regs[i].name == name
    ensures name in Latest(regs) ==>
      exists i :: 0 <= i < |regs| && regs[i].name == name && Latest(regs)[name] == regs[i].spec
                  && forall j :: i < j < |regs| ==> regs[j].name != name
  {
    if regs != [] {
      var front := regs[..|regs| - 1];
      var last := regs[|regs| - 1];
      LatestIsLast(front, name);
      if last.name != name && name in Latest(front) {
        var i :| 0 <= i < |front| && front[i].name == name && Latest(front)[name] == front[i].spec
                 && forall j :: i < j < |front| ==> front[j].name != name;
        assert regs[i] == front[i];
      }
      if last.name != name && (exists i :: 0 <= i < |regs| && regs[i].name == name) {
        var i :| 0 <= i < |regs| && regs[i].name == name;
        assert front[i] == regs[i];
      }
    }
  }

  /**
   * Reconnect resilience: with a credential of an unknown service stored before a valid AWS
   * credential, `connect` completes and registers exactly the AWS connection, built from
   * that credential's keys and settings.
   */
  lemma ReconnectResilience(unknown: Cred, aws: Cred, registry: map<string, ProviderKind>)
    requires unknown.serviceName !in registry
    requires aws.serviceName in registry && registry[aws.serviceName] == AWSProvider
    requires aws.accessKey.Some? && aws.secretAccessKey.Some? && aws.otherSetting.Some?
    ensures PlanFor([unknown, aws], registry).failure.None?
    ensures Latest(PlanFor([unknown, aws], registry).regs)
         == map[aws.serviceName := AWSSpec(aws.accessKey.value, aws.secretAccessKey.value, aws.otherSetting.value)]
  {
    assert [unknown, aws][..1] == [unknown];
    assert [unknown][..0] == [];
    assert PlanFor([unknown], registry) == Plan([], None);
    var reg := Registration(aws.serviceName, AWSSpec(aws.accessKey.value, aws.secretAccessKey.value, aws.otherSetting.value));
    assert StepFor(aws, registry) == Register(reg);
    assert PlanFor([unknown, aws], registry) == Plan([reg], None);
    assert [reg][..0] == [];
  }

  /** A single well-formed AWS credential makes `connect` register exactly one AWS connection, built from it. */
  lemma SingleAwsCredential(cred: Cred)
    requires cred.serviceName == "AWS"
    requires cred.accessKey.Some? && cred.secretAccessKey.Some? && cred.otherSetting.Some?
    ensures PlanFor([cred], ProvidersListMap).failure.None?
    ensures Latest(PlanFor([cred], ProvidersListMap).regs)
         == map["AWS" := AWSSpec(cred.accessKey.value, cred.secretAccessKey.value, cred.otherSetting.value)]
  {
    var reg := Registration("AWS", AWSSpec(cred.accessKey.value, cred.secretAccessKey.value, cred.otherSetting.value));
    assert StepFor(cred, ProvidersListMap) == Register(reg);
    assert [cred][..0] == [];
    assert PlanFor([cred], ProvidersListMap) == Plan([reg], None);
    assert [reg][..0] == [];
  }

  /**
   * The vault's end-to-end scenario: an AWS credential stored with the public key decrypts
   * under the matching private key, and `connect` registers under "AWS" exactly one
   * connection, built from the stored keys and settings (so a stored `region_name` is the
   * connection's region, by `Realizes`).
   */
  lemma StoredAwsCredentialConnects(pub: PublicKey, priv: PrivateKey, id: Id, seeds: Seeds,
                                    key: string, secret: string, settings: Dict)
    requires Matches(pub, priv)
    requires 0 < |key| <= 47 && 0 < |secret| <= 47 && |settings| > 0
    ensures var record := AWSAuth(id, access_key := Some(key), secret_access_key := Some(secret), other_setting := Some(settings));
      && NewRow(Some(pub), record, seeds).Ok?
      && DecryptRows(Some(priv), [NewRow(Some(pub), record, seeds).value]).Ok?
      && var plan := PlanFor(DecryptRows(Some(priv), [NewRow(Some(pub), record, seeds).value]).value, ProvidersListMap);
         && plan.failure.None?
         && Latest(plan.regs) == map["AWS" := AWSSpec(key, secret, settings)]
  {
    var record := AWSAuth(id, access_key := Some(key), secret_access_key := Some(secret), other_setting := Some(settings));
    ShortSecretsStore(pub, record, seeds);
    var row := NewRow(Some(pub), record, seeds).value;
    StoredRowDecrypts(pub, priv, record, seeds);
    var cred := Cred("AWS", None, None, Some(secret), Some(key), Some(settings));
    assert DecryptRow(Some(priv), row) == Ok(cred);
    DecryptRowsPointwise(Some(priv), [row]);
    assert DecryptRows(Some(priv), [row]).value == [cred];
    SingleAwsCredential(cred);
  }

  // ------------------------------------------------------------ the vault

  class BaseAuth {
    var db: Database?
    var privateKey: Option<PrivateKey>
    var publicKey: Option<PublicKey>

    /** A new vault has no database open and no key loaded. */
    constructor ()
      ensures db == null && privateKey.None? && publicKey.None?
    {
      db := null;
      privateKey := None;
      publicKey := None;
    }

    /**
     * `add_provider`: needs an open database with a public-key row; then appends one row with
     * the record's service name and label and each non-empty secret encrypted. When a secret
     * cannot be encrypted the table is left as it was.
     */
    method AddProvider(provider: AuthRecord, seeds: Seeds) returns (r: Outcome<VaultError>)
      modifies db
      ensures db == null ==> r == Fail(NotConnected)
      ensures db != null ==> db.auth == old(db.auth)
      ensures db != null && |db.auth| == 0 ==> r == Fail(NoPublicKey) && db.providers == old(db.providers)
      ensures db != null && |db.auth| > 0 && NewRow(publicKey, provider, seeds).Ok? ==>
        r == Pass && db.providers == old(db.providers) + [NewRow(publicKey, provider, seeds).value]
      ensures db != null && |db.auth| > 0 && NewRow(publicKey, provider, seeds).Err? ==>
        r == Fail(NewRow(publicKey, provider, seeds).error) && db.providers == old(db.providers)
    {
      if db == null {
        return Fail(NotConnected);
      }
      if |db.auth| == 0 {
        return Fail(NoPublicKey);
      }
      var row := NewRow(publicKey, provider, seeds);
      if row.Err? {
        return Fail(row.error);
      }
      db.providers := db.providers + [row.value];
      r := Pass;
    }

    /**
     * `update_provider`: every row of the record's service keeps each column the record leaves
     * empty and takes the new value of each column it supplies; other rows are untouched.
     */
    method UpdateProvider(provider: AuthRecord, seeds: Seeds) returns (r: Outcome<VaultError>)
      modifies db
      ensures db == null ==> r == Fail(NotConnected)
      ensures db != null ==> db.auth == old(db.auth)
      ensures db != null && Seal(publicKey, provider, seeds).Ok? ==>
        r == Pass
        && db.providers == UpdateRows(old(db.providers), provider.service_name, provider.name,
                                      Seal(publicKey, provider, seeds).value)
      ensures db != null && Seal(publicKey, provider, seeds).Err? ==>
        r == Fail(Seal(publicKey, provider, seeds).error) && db.providers == old(db.providers)
    {
      if db == null {
        return Fail(NotConnected);
      }
      var sealed := Seal(publicKey, provider, seeds);
      if sealed.Err? {
        return Fail(sealed.error);
      }
      db.providers := UpdateRows(db.providers, provider.service_name, provider.name, sealed.value);
      r := Pass;
    }

    /** `delete_provider`: removes every row of the record's service; with no such row the table is untouched. */
    method DeleteProvider(provider: AuthRecord) returns (r: Outcome<VaultError>)
      modifies db
      ensures db == null ==> r == Fail(NotConnected)
      ensures db != null ==> r == Pass && db.auth == old(db.auth)
      ensures db != null ==> db.providers == RemoveMatches(old(db.providers), provider.service_name)
      ensures db != null && CountMatches(old(db.providers), provider.service_name) == 0 ==> db.providers == old(db.providers)
    {
      if db == null {
        return Fail(NotConnected);
      }
      var count := CountMatches(db.providers, provider.service_name);
      if count == 0 {
        RemoveNothing(db.providers, provider.service_name);
        return Pass;
      }
      db.providers := RemoveMatches(db.providers, provider.service_name);
      r := Pass;
    }

    /** `list_providers`: one masked entry per row, in table order; a row that does not decrypt aborts the listing. */
    method ListProviders() returns (r: Result<seq<MaskedRow>, VaultError>)
      ensures db == null ==> r == Err(NotConnected)
      ensures db != null ==> r == MaskRows(privateKey, db.providers)
    {
      if db == null {
        return Err(NotConnected);
      }
      var rows := db.providers;
      var listed: seq<MaskedRow> := [];
      var i := 0;
      while i < |rows|
        invariant 0 <= i <= |rows|
        invariant MaskRows(privateKey, rows[..i]) == Ok(listed)
      {
        assert rows[..i + 1][..i] == rows[..i];
        var row := rows[i];
        var apiKey := DecryptField(privateKey, row.apiKey);
        var secret := DecryptField(privateKey, row.apiSecret);
        var accessKey := DecryptField(privateKey, row.accessKey);
        if apiKey.Err? || secret.Err? || accessKey.Err? {
          var e := if apiKey.Err? then apiKey.error else if secret.Err? then secret.error else accessKey.error;
          assert MaskRows(privateKey, rows[..i + 1]) == Err(e);
          MaskFailurePersists(privateKey, rows[..i + 1], rows[i + 1..]);
          assert rows[..i + 1] + rows[i + 1..] == rows;
          return Err(e);
        }
        listed := listed + [MaskedRow(row.serviceName, row.name, MaskApiKey(apiKey.value), Stars,
                                      MaskAccessKey(accessKey.value), row.otherSetting)];
        i := i + 1;
      }
      assert rows[..i] == rows;
      r := Ok(listed);
    }

    /** `get_creds()`: one decrypted record per row, in table order; a row that does not decrypt aborts it. */
    method GetCreds() returns (r: Result<seq<Cred>, VaultError>)
      ensures db == null ==> r == Err(NotConnected)
      ensures db != null ==> r == DecryptRows(privateKey, db.providers)
    {
      if db == null {
        return Err(NotConnected);
      }
      var rows := db.providers;
      var creds: seq<Cred> := [];
      var i := 0;
      while i < |rows|
        invariant 0 <= i <= |rows|
        invariant DecryptRows(privateKey, rows[..i]) == Ok(creds)
      {
        assert rows[..i + 1][..i] == rows[..i];
        var row := rows[i];
        var apiKey := DecryptField(privateKey, row.apiKey);
        var secret := DecryptField(privateKey, row.apiSecret);
        var accessKey := DecryptField(privateKey, row.accessKey);
        if apiKey.Err? || secret.Err? || accessKey.Err? {
          var e := if apiKey.Err? then apiKey.error else if secret.Err? then secret.error else accessKey.error;
          assert DecryptRows(privateKey, rows[..i + 1]) == Err(e);
          DecryptFailurePersists(privateKey, rows[..i + 1], rows[i + 1..]);
          assert rows[..i + 1] + rows[i + 1..] == rows;
          return Err(e);
        }
        var settings := if row.otherSetting.Some? then Some(row.otherSetting.value.dict) else None;
        creds := creds + [Cred(row.serviceName, row.name, apiKey.value, secret.value, accessKey.value, settings)];
        i := i + 1;
      }
      assert rows[..i] == rows;
      r := Ok(creds);
    }

    /**
     * `get_creds(provider)`: the decrypted first row whose service is the record class's
     * default service name, `None` when the table has no such row.
     */
    method GetCredsOf(kind: AuthKind) returns (r: Result<Option<Cred>, VaultError>)
      ensures db == null ==> r == Err(NotConnected)
      ensures db != null ==>
        (r == Ok(None) <==> forall j :: 0 <= j < |db.providers| ==> db.providers[j].serviceName != DefaultServiceName(kind))
      ensures db != null && r.Ok? && r.value.Some? ==>
        exists i :: 0 <= i < |db.providers| && db.providers[i].serviceName == DefaultServiceName(kind)
                    && (forall j :: 0 <= j < i ==> db.providers[j].serviceName != DefaultServiceName(kind))
                    && DecryptRow(privateKey, db.providers[i]) == Ok(r.value.value)
      ensures db != null && r.Err? ==>
        exists i :: 0 <= i < |db.providers| && db.providers[i].serviceName == DefaultServiceName(kind)
                    && (forall j :: 0 <= j < i ==> db.providers[j].serviceName != DefaultServiceName(kind))
                    && DecryptRow(privateKey, db.providers[i]) == Err(r.error)
    {
      if db == null {
        return Err(NotConnected);
      }
      var service := DefaultServiceName(kind);
      var found := FirstMatch(db.providers, service);
      if found.None? {
        return Ok(None);
      }
      var cred := DecryptRow(privateKey, db.providers[found.value]);
      if cred.Err? {
        return Err(cred.error);
      }
      r := Ok(Some(cred.value));
    }

    /**
     * `connect`: opens the store, loads the private key and the stored public key, decrypts
     * every credential and, in table order, builds, initialises and registers a connection
     * for each one whose service the registry knows. A credential the auth schema refuses
     * stops the loop; connections registered before it stay registered.
     */
    method Connect(key: KeyMaterial, store: Database?, registry: map<string, ProviderKind>, manager: ConnectionManager)
      returns (r: Outcome<VaultError>)
      modifies this, manager
      ensures store == null ==> r == Fail(DatabaseMissing) && unchanged(this) && unchanged(manager)
      ensures store != null && key.NoKey? ==> r == Fail(InvalidKey) && unchanged(this) && unchanged(manager)
      ensures store != null && key.Unreadable? ==>
        && r == Fail(InvalidKey) && privateKey.None?
        && db == old(db) && publicKey == old(publicKey) && unchanged(manager)
      ensures store != null && key.Pem? ==> db == store && privateKey == Some(key.key)
      ensures store != null && key.Pem? && |store.auth| == 0 ==>
        r == Fail(NoPublicKey) && publicKey == old(publicKey) && unchanged(manager)
      ensures store != null && key.Pem? && |store.auth| > 0 ==>
        publicKey == Some(store.auth[0])
      ensures store != null && key.Pem? && |store.auth| > 0 && DecryptRows(Some(key.key), store.providers).Err? ==>
        r == Fail(DecryptRows(Some(key.key), store.providers).error) && unchanged(manager)
      ensures store != null && key.Pem? && |store.auth| > 0 && DecryptRows(Some(key.key), store.providers).Ok? ==>
        var plan := PlanFor(DecryptRows(Some(key.key), store.providers).value, registry);
        && (r == Pass <==> plan.failure.None?)
        && (r.Fail? ==> r.error == plan.failure.value)
        && manager.connections.Keys == old(manager.connections).Keys + Latest(plan.regs).Keys
        && (forall n :: n in old(manager.connections) && n !in Latest(plan.regs) ==>
              manager.connections[n] == old(manager.connections)[n])
        && (forall n :: n in Latest(plan.regs) ==>
              fresh(manager.connections[n].Obj()) && Realizes(manager.connections[n], Latest(plan.regs)[n]))
    {
      if store == null {
        return Fail(DatabaseMissing);
      }
      match key {
        case NoKey =>
          return Fail(InvalidKey);
        case Unreadable =>
          privateKey := None;
          return Fail(InvalidKey);
        case Pem(k) =>
          privateKey := Some(k);
      }
      db := store;
      if |store.auth| == 0 {
        return Fail(NoPublicKey);
      }
      publicKey := Some(store.auth[0]);
      var creds := GetCreds();
      if creds.Err? {
        return Fail(creds.error);
      }
      r := RegisterAll(creds.value, registry, manager);
    }
  }

  /**
   * The registration loop of `connect`: in order, each credential of a known service has its
   * connection built, initialised and registered under its service name; the first credential
   * the auth schema refuses stops the loop, after the earlier registrations.
   */
  method RegisterAll(creds: seq<Cred>, registry: map<string, ProviderKind>, manager: ConnectionManager)
    returns (r: Outcome<VaultError>)
    modifies manager
    ensures r == Pass <==> PlanFor(creds, registry).failure.None?
    ensures r.Fail? ==> r.error == PlanFor(creds, registry).failure.value
    ensures manager.connections.Keys == old(manager.connections).Keys + Latest(PlanFor(creds, registry).regs).Keys
    ensures forall n :: n in old(manager.connections) && n !in Latest(PlanFor(creds, registry).regs) ==>
      manager.connections[n] == old(manager.connections)[n]
    ensures forall n :: n in Latest(PlanFor(creds, registry).regs) ==>
      fresh(manager.connections[n].Obj()) && Realizes(manager.connections[n], Latest(PlanFor(creds, registry).regs)[n])
  {
    var i := 0;
    while i < |creds|
      invariant 0 <= i <= |creds|
      invariant PlanFor(creds[..i], registry).failure.None?
      invariant manager.connections.Keys == old(manager.connections).Keys + Latest(PlanFor(creds[..i], registry).regs).Keys
      invariant forall n :: n in old(manager.connections) && n !in Latest(PlanFor(creds[..i], registry).regs) ==>
        manager.connections[n] == old(manager.connections)[n]
      invariant forall n :: n in Latest(PlanFor(creds[..i], registry).regs) ==>
        fresh(manager.connections[n].Obj()) && Realizes(manager.connections[n], Latest(PlanFor(creds[..i], registry).regs)[n])
    {
      assert creds[..i + 1][..i] == creds[..i];
      ghost var before := PlanFor(creds[..i], registry);
      match StepFor(creds[i], registry) {
        case Skip =>
          assert PlanFor(creds[..i + 1], registry) == before;
        case Refuse(e) =>
          assert creds[..i + 1] + creds[i + 1..] == creds;
          RefusalPersists(creds[..i + 1], creds[i + 1..], registry);
          return Fail(e);
        case Register(reg) =>
          assert PlanFor(creds[..i + 1], registry).regs == before.regs + [reg];
          assert Latest(before.regs + [reg]) == Latest(before.regs)[reg.name := reg.spec] by {
            assert (before.regs + [reg])[..|before.regs|] == before.regs;
          }
          var conn := Open(reg.spec);
          manager.AddConnection(reg.name, conn);
      }
      i := i + 1;
    }
    assert creds[..i] == creds;
    r := Pass;
  }

  // ------------------------------------------------------------ helper lemmas

  /** Once a prefix of the table fails to list, the whole table fails with the same error. */
  lemma {:induction false} MaskFailurePersists(priv: Option<PrivateKey>, front: seq<Row>, rest: seq<Row>)
    requires MaskRows(priv, front).Err?
    ensures MaskRows(priv, front + rest) == MaskRows(priv, front)
    decreases |rest|
  {
    if rest != [] {
      assert (front + rest)[..|front + rest| - 1] == front + rest[..|rest| - 1];
      MaskFailurePersists(priv, front, rest[..|rest| - 1]);
    } else {
      assert front + rest == front;
    }
  }

  /** Once a prefix of the table fails to decrypt, the whole table fails with the same error. */
  lemma {:induction false} DecryptFailurePersists(priv: Option<PrivateKey>, front: seq<Row>, rest: seq<Row>)
    requires DecryptRows(priv, front).Err?
    ensures DecryptRows(priv, front + rest) == DecryptRows(priv, front)
    decreases |rest|
  {
    if rest != [] {
      assert (front + rest)[..|front + rest| - 1] == front + rest[..|rest| - 1];
      DecryptFailurePersists(priv, front, rest[..|rest| - 1]);
    } else {
      assert front + rest == front;
    }
  }

  /** Once a credential stops `connect`, later credentials change nothing. */
  lemma {:induction false} RefusalPersists(front: seq<Cred>, rest: seq<Cred>, registry: map<string, ProviderKind>)
    requires PlanFor(front, registry).failure.Some?
    ensures PlanFor(front + rest, registry) == PlanFor(front, registry)
    decreases |rest|
  {
    if rest != [] {
      assert (front + rest)[..|front + rest| - 1] == front + rest[..|rest| - 1];
      RefusalPersists(front, rest[..|rest| - 1], registry);
    } else {
      assert front + rest == front;
    }
  }
}
