/**
 * The rows of the vault's `providers` table and the pure rules the vault applies to
 * them: how a credential record becomes a row, the null-coalescing update, deletion
 * by service name, the decrypted view and the masked view.
 */
module VaultTable {

  import opened Wrappers
  import opened Values
  import opened Strings
  import opened Cipher
  import opened AuthFormat

  /** The `other_setting` JSON column: the text `json.dumps` wrote, seen through what `json.loads` gives back. */
  datatype JsonText = JsonText(dict: Dict)

  /** One row of `providers`; a `None` column is SQL NULL. The secret key lives in the `api_secret` column. */
  datatype Row = Row(serviceName: string, name: Option<string>, apiKey: Option<Ciphertext>,
                     apiSecret: Option<Ciphertext>, accessKey: Option<Ciphertext>,
                     otherSetting: Option<JsonText>)

  /** A decrypted row, the dictionary `get_creds` returns. */
  datatype Cred = Cred(serviceName: string, name: Option<string>, apiKey: Option<string>,
                       secretAccessKey: Option<string>, accessKey: Option<string>,
                       otherSetting: Option<Dict>)

  /** A row of the `list_providers` view. */
  datatype MaskedRow = MaskedRow(serviceName: string, name: Option<string>, apiKey: Option<string>,
                                 secret: string, accessKey: Option<string>, otherSetting: Option<JsonText>)

  datatype VaultError =
    | NotConnected          // `self.db is None`
    | NoPublicKey           // the `auth` table has no row
    | KeyNotLoaded          // the cipher key the operation needs is not loaded
    | CipherFailed(error: CipherError)
    | DatabaseMissing       // `connect` found no database file
    | InvalidKey            // `connect` could not load the private key
    | SchemaMismatch(service: string)  // `model_validate` refused a stored credential
    | MissingSettings(service: string) // an AWS credential without `other_setting`

  /** Python truthiness of an optional string: present and non-empty. */
  predicate Present(x: Option<string>)
  {
    x.Some? && |x.value| > 0
  }

  /** The value `get_creds` returns for a secret stored from `x`: empty strings are stored as NULL. */
  function Stored(x: Option<string>): Option<string>
  {
    if Present(x) then x else None
  }

  /** The settings `get_creds` returns for settings stored from `s`: an empty dict is stored as NULL. */
  function StoredSettings(s: Option<Dict>): Option<Dict>
  {
    if s.Some? && |s.value| > 0 then s else None
  }

  /** `self.encrypt(x) if x else None`. */
  function EncryptField(pub: Option<PublicKey>, x: Option<string>, seed: nat): (r: Result<Option<Ciphertext>, VaultError>)
    ensures !Present(x) ==> r == Ok(None)
    ensures Present(x) && pub.None? ==> r == Err(KeyNotLoaded)
    ensures Present(x) && pub.Some? ==>
      (r.Ok? <==> Utf8Length(x.value) <= MaxPlaintextBytes)
    ensures r.Ok? && Present(x) ==> r.value.Some? && r.value.value == Encrypt(pub.value, x.value, seed).value
  {
    if !Present(x) then Ok(None)
    else if pub.None? then Err(KeyNotLoaded)
    else match Encrypt(pub.value, x.value, seed)
      case Err(e) => Err(CipherFailed(e))
      case Ok(c) => Ok(Some(c))
  }

  /** `self.decrypt(c) if c else None`. */
  function DecryptField(priv: Option<PrivateKey>, c: Option<Ciphertext>): (r: Result<Option<string>, VaultError>)
    ensures c.None? ==> r == Ok(None)
    ensures c.Some? && priv.None? ==> r == Err(KeyNotLoaded)
    ensures c.Some? && priv.Some? ==> (r.Ok? <==> c.value.pairId == priv.value.pairId)
  {
    if c.None? then Ok(None)
    else if priv.None? then Err(KeyNotLoaded)
    else match Decrypt(priv.value, c.value)
      case Err(e) => Err(CipherFailed(e))
      case Ok(s) => Ok(Some(s))
  }

  /** The encrypted columns of a record: the secrets in the order the source encrypts them, and the settings text. */
  datatype Sealed = Sealed(apiKey: Option<Ciphertext>, accessKey: Option<Ciphertext>,
                           secret: Option<Ciphertext>, otherSetting: Option<JsonText>)

  /** The padding seeds the three `encrypt` calls of one record draw, one each. */
  datatype Seeds = Seeds(apiKey: nat, accessKey: nat, secret: nat)

  /** The four column values `add_provider` and `update_provider` compute from a record (api key, access key, secret, in that order). */
  function Seal(pub: Option<PublicKey>, p: AuthRecord, seeds: Seeds): (r: Result<Sealed, VaultError>)
    ensures r.Ok? <==> !Unsealable(pub, p.ApiKey()) && !Unsealable(pub, p.AccessKey()) && !Unsealable(pub, p.SecretAccessKey())
    ensures r.Err? && Unsealable(pub, p.ApiKey()) ==> r == EncryptField(pub, p.ApiKey(), seeds.apiKey).PropagateFailure()
    ensures r.Ok? ==> (r.value.apiKey.Some? <==> Present(p.ApiKey())) && (r.value.accessKey.Some? <==> Present(p.AccessKey()))
                      && (r.value.secret.Some? <==> Present(p.SecretAccessKey()))
    ensures r.Ok? ==> (r.value.otherSetting.Some? <==> p.other_setting.Some? && |p.other_setting.value| > 0)
  {
    var apiKey :- EncryptField(pub, p.ApiKey(), seeds.apiKey);
    var accessKey :- EncryptField(pub, p.AccessKey(), seeds.accessKey);
    var secret :- EncryptField(pub, p.SecretAccessKey(), seeds.secret);
    var settings := if p.other_setting.Some? && |p.other_setting.value| > 0 then Some(JsonText(p.other_setting.value)) else None;
    Ok(Sealed(apiKey, accessKey, secret, settings))
  }

  /** A secret of the record that cannot be stored: present and either no key to encrypt with or too long. */
  predicate Unsealable(pub: Option<PublicKey>, x: Option<string>)
  {
    Present(x) && (pub.None? || Utf8Length(x.value) > MaxPlaintextBytes)
  }

  /** The row `add_provider` inserts for `p`. */
  function NewRow(pub: Option<PublicKey>, p: AuthRecord, seeds: Seeds): (r: Result<Row, VaultError>)
    ensures r.Ok? <==> !Unsealable(pub, p.ApiKey()) && !Unsealable(pub, p.AccessKey()) && !Unsealable(pub, p.SecretAccessKey())
    ensures r.Ok? ==> r.value.serviceName == p.service_name && r.value.name == p.name
    ensures r.Ok? ==> (r.value.apiKey.Some? <==> Present(p.ApiKey()))
    ensures r.Ok? ==> (r.value.accessKey.Some? <==> Present(p.AccessKey()))
    ensures r.Ok? ==> (r.value.apiSecret.Some? <==> Present(p.SecretAccessKey()))
  {
    var s :- Seal(pub, p, seeds);
    Ok(Row(p.service_name, p.name, s.apiKey, s.secret, s.accessKey, s.otherSetting))
  }

  /** SQL `COALESCE(new, old)`. */
  function Coalesce<T>(given: Option<T>, current: Option<T>): (r: Option<T>)
    ensures given.Some? ==> r == given
    ensures given.None? ==> r == current
  {
    if given.Some? then given else current
  }

  /** `row` after `UPDATE ... SET col = COALESCE(?, col)` with the given label and sealed columns. */
  function Updated(row: Row, name: Option<string>, s: Sealed): Row
  {
    row.(name := Coalesce(name, row.name), apiKey := Coalesce(s.apiKey, row.apiKey),
         apiSecret := Coalesce(s.secret, row.apiSecret), accessKey := Coalesce(s.accessKey, row.accessKey),
         otherSetting := Coalesce(s.otherSetting, row.otherSetting))
  }

  /** The table after the update statement `WHERE service_name = service`. */
  function UpdateRows(rows: seq<Row>, service: string, name: Option<string>, s: Sealed): (r: seq<Row>)
    ensures |r| == |rows|
    ensures forall i :: 0 <= i < |rows| && rows[i].serviceName != service ==> r[i] == rows[i]
    ensures forall i :: 0 <= i < |rows| && rows[i].serviceName == service ==> r[i] == Updated(rows[i], name, s)
  {
    seq(|rows|, i requires 0 <= i < |rows| => if rows[i].serviceName == service then Updated(rows[i], name, s) else rows[i])
  }

  /** `SELECT COUNT(*) FROM providers WHERE service_name = ?`. */
  function CountMatches(rows: seq<Row>, service: string): nat
  {
    if rows == [] then 0
    else CountMatches(rows[..|rows| - 1], service) + (if rows[|rows| - 1].serviceName == service then 1 else 0)
  }

  /** The table after `DELETE FROM providers WHERE service_name = ?`: the other rows, in order. */
  function RemoveMatches(rows: seq<Row>, service: string): (r: seq<Row>)
    ensures |r| + CountMatches(rows, service) == |rows|
    ensures forall i :: 0 <= i < |r| ==> r[i].serviceName != service
  {
    if rows == [] then []
    else RemoveMatches(rows[..|rows| - 1], service)
         + (if rows[|rows| - 1].serviceName == service then [] else [rows[|rows| - 1]])
  }

  /** The dictionary `get_creds` builds from one row: the three secrets decrypted (api key, secret, access key), the settings parsed. */
  function DecryptRow(priv: Option<PrivateKey>, row: Row): (r: Result<Cred, VaultError>)
    ensures r.Ok? ==> r.value.serviceName == row.serviceName && r.value.name == row.name
    ensures r.Ok? ==> r.value.otherSetting == (if row.otherSetting.Some? then Some(row.otherSetting.value.dict) else None)
  {
    var apiKey :- DecryptField(priv, row.apiKey);
    var secret :- DecryptField(priv, row.apiSecret);
    var accessKey :- DecryptField(priv, row.accessKey);
    var settings := if row.otherSetting.Some? then Some(row.otherSetting.value.dict) else None;
    Ok(Cred(row.serviceName, row.name, apiKey, secret, accessKey, settings))
  }

  /** The list `get_creds()` builds row by row; the first row that fails to decrypt aborts it. */
  function DecryptRows(priv: Option<PrivateKey>, rows: seq<Row>): Result<seq<Cred>, VaultError>
  {
    if rows == [] then Ok([])
    else
      var front :- DecryptRows(priv, rows[..|rows| - 1]);
      var last :- DecryptRow(priv, rows[|rows| - 1]);
      Ok(front + [last])
  }

  /** What `list_providers` shows of a secret column. */
  const Stars: string := "******"

  /** `k[:2] + "******" if k else None`. */
  function MaskApiKey(k: Option<string>): (m: Option<string>)
    ensures m.Some? <==> Present(k)
    ensures m.Some? ==> m.value == Take(k.value, 2) + Stars
  {
    if Present(k) then Some(Take(k.value, 2) + Stars) else None
  }

  /** `k[:2] + "******" + k[-2:] if k else None`. */
  function MaskAccessKey(k: Option<string>): (m: Option<string>)
    ensures m.Some? <==> Present(k)
    ensures m.Some? ==> m.value == Take(k.value, 2) + Stars + TakeLast(k.value, 2)
  {
    if Present(k) then Some(Take(k.value, 2) + Stars + TakeLast(k.value, 2)) else None
  }

  /** The entry `list_providers` builds from one row: every secret is decrypted, then masked; the settings text is passed through. */
  function MaskRow(priv: Option<PrivateKey>, row: Row): Result<MaskedRow, VaultError>
  {
    var cred :- DecryptRow(priv, row);
    Ok(MaskedRow(row.serviceName, row.name, MaskApiKey(cred.apiKey), Stars, MaskAccessKey(cred.accessKey), row.otherSetting))
  }

  /** The list `list_providers` builds row by row; the first row that fails to decrypt aborts it. */
  function MaskRows(priv: Option<PrivateKey>, rows: seq<Row>): Result<seq<MaskedRow>, VaultError>
  {
    if rows == [] then Ok([])
    else
      var front :- MaskRows(priv, rows[..|rows| - 1]);
      var last :- MaskRow(priv, rows[|rows| - 1]);
      Ok(front + [last])
  }

  /** Index of the first row of `service` (`fetchone` after the `WHERE` query), `None` when there is none. */
  function FirstMatch(rows: seq<Row>, service: string): (r: Option<nat>)
    ensures r.Some? ==> r.value < |rows| && rows[r.value].serviceName == service
    ensures r.Some? ==> forall j :: 0 <= j < r.value ==> rows[j].serviceName != service
    ensures r.None? ==> forall j :: 0 <= j < |rows| ==> rows[j].serviceName != service
  {
    if rows == [] then None
    else if rows[0].serviceName == service then Some(0)
    else match FirstMatch(rows[1..], service)
      case None => None
      case Some(k) => Some(k + 1)
  }

  // ---------------------------------------------------------------- properties

  /** A row stored with the public key decrypts, under the matching private key, to the record's own values (empty ones as NULL). */
  lemma StoredRowDecrypts(pub: PublicKey, priv: PrivateKey, p: AuthRecord, seeds: Seeds)
    requires Matches(pub, priv)
    requires NewRow(Some(pub), p, seeds).Ok?
    ensures DecryptRow(Some(priv), NewRow(Some(pub), p, seeds).value)
         == Ok(Cred(p.service_name, p.name, Stored(p.ApiKey()), Stored(p.SecretAccessKey()),
                    Stored(p.AccessKey()), StoredSettings(p.other_setting)))
  {
  }

  /** A record whose secrets are all short enough can always be stored once a public key is loaded. */
  lemma ShortSecretsStore(pub: PublicKey, p: AuthRecord, seeds: Seeds)
    requires p.ApiKey().Some? ==> |p.ApiKey().value| <= 47
    requires p.AccessKey().Some? ==> |p.AccessKey().value| <= 47
    requires p.SecretAccessKey().Some? ==> |p.SecretAccessKey().value| <= 47
    ensures NewRow(Some(pub), p, seeds).Ok?
  {
    if p.ApiKey().Some? { ShortTextsFit(p.ApiKey().value); }
    if p.AccessKey().Some? { ShortTextsFit(p.AccessKey().value); }
    if p.SecretAccessKey().Some? { ShortTextsFit(p.SecretAccessKey().value); }
  }

  /**
   * Each secret is encrypted with its own seed, so two equal secrets of one record, like
   * equal secrets of two records, are stored as different ciphertexts.
   */
  lemma EqualSecretsStoredApart(pub: PublicKey, p: AuthRecord, seeds: Seeds)
    requires seeds.accessKey != seeds.secret
    requires NewRow(Some(pub), p, seeds).Ok?
    requires Present(p.AccessKey()) && p.AccessKey() == p.SecretAccessKey()
    ensures NewRow(Some(pub), p, seeds).value.accessKey != NewRow(Some(pub), p, seeds).value.apiSecret
  {
    Probabilistic(pub, p.AccessKey().value, seeds.accessKey, seeds.secret);
  }

  /** An update that carries no label, secret or settings leaves the table as it was. */
  lemma EmptyUpdateIsNoOp(rows: seq<Row>, service: string)
    ensures UpdateRows(rows, service, None, Sealed(None, None, None, None)) == rows
  {
    var r := UpdateRows(rows, service, None, Sealed(None, None, None, None));
    assert forall i :: 0 <= i < |rows| ==> r[i] == rows[i];
  }

  /** A partial update changes only the columns it supplies: a column it leaves NULL keeps the old ciphertext in every row. */
  lemma UpdateKeepsUnsupplied(rows: seq<Row>, service: string, name: Option<string>, s: Sealed, i: nat)
    requires i < |rows|
    ensures s.apiKey.None? ==> UpdateRows(rows, service, name, s)[i].apiKey == rows[i].apiKey
    ensures s.secret.None? ==> UpdateRows(rows, service, name, s)[i].apiSecret == rows[i].apiSecret
    ensures s.accessKey.None? ==> UpdateRows(rows, service, name, s)[i].accessKey == rows[i].accessKey
    ensures s.otherSetting.None? ==> UpdateRows(rows, service, name, s)[i].otherSetting == rows[i].otherSetting
    ensures name.None? ==> UpdateRows(rows, service, name, s)[i].name == rows[i].name
    ensures UpdateRows(rows, service, name, s)[i].serviceName == rows[i].serviceName
  {
  }

  /** Updating is idempotent: a second identical update changes nothing more. */
  lemma UpdateIdempotent(rows: seq<Row>, service: string, name: Option<string>, s: Sealed)
    ensures UpdateRows(UpdateRows(rows, service, name, s), service, name, s) == UpdateRows(rows, service, name, s)
  {
    var once := UpdateRows(rows, service, name, s);
    var twice := UpdateRows(once, service, name, s);
    assert forall i :: 0 <= i < |rows| ==> twice[i] == once[i];
  }

  /** Deletion splits over a concatenation of tables. */
  lemma {:induction false} RemoveAppend(a: seq<Row>, b: seq<Row>, service: string)
    ensures RemoveMatches(a + b, service) == RemoveMatches(a, service) + RemoveMatches(b, service)
    decreases |b|
  {
    if b == [] {
      assert a + b == a;
    } else {
      var last := b[|b| - 1];
      var tail := if last.serviceName == service then [] else [last];
      assert (a + b)[..|a + b| - 1] == a + b[..|b| - 1];
      RemoveAppend(a, b[..|b| - 1], service);
      calc {
        RemoveMatches(a + b, service);
        RemoveMatches(a + b[..|b| - 1], service) + tail;
        RemoveMatches(a, service) + RemoveMatches(b[..|b| - 1], service) + tail;
        RemoveMatches(a, service) + RemoveMatches(b, service);
      }
    }
  }

  /** Deleting a service that has no row leaves the table unchanged. */
  lemma {:induction false} RemoveNothing(rows: seq<Row>, service: string)
    requires CountMatches(rows, service) == 0
    ensures RemoveMatches(rows, service) == rows
  {
    if rows != [] {
      RemoveNothing(rows[..|rows| - 1], service);
      assert rows[..|rows| - 1] + [rows[|rows| - 1]] == rows;
    }
  }

  /** After deletion no row of the service is left, exactly the matching rows are gone, and every remaining row was there before. */
  lemma {:induction false} RemoveExact(rows: seq<Row>, service: string)
    ensures forall r :: r in RemoveMatches(rows, service) ==> r.serviceName != service && r in rows
    ensures |RemoveMatches(rows, service)| == |rows| - CountMatches(rows, service)
    ensures CountMatches(rows, service) <= |rows|
  {
    if rows != [] {
      RemoveExact(rows[..|rows| - 1], service);
      var front := rows[..|rows| - 1];
      forall r | r in RemoveMatches(rows, service)
        ensures r.serviceName != service && r in rows
      {
        if r in RemoveMatches(front, service) {
          assert r in front;
        }
      }
    }
  }

  /** A row that is not of the service survives deletion. */
  lemma {:induction false} RemoveKeepsOthers(rows: seq<Row>, service: string, r: Row)
    requires r in rows && r.serviceName != service
    ensures r in RemoveMatches(rows, service)
  {
    var front := rows[..|rows| - 1];
    if r == rows[|rows| - 1] {
    } else {
      assert rows == front + [rows[|rows| - 1]];
      assert r in front;
      RemoveKeepsOthers(front, service, r);
    }
  }

  /** Adding a credential and then deleting its service leaves the table with none of that service, as deleting alone would. */
  lemma AddThenDelete(rows: seq<Row>, row: Row)
    ensures RemoveMatches(rows + [row], row.serviceName) == RemoveMatches(rows, row.serviceName)
  {
    assert (rows + [row])[..|rows + [row]| - 1] == rows;
  }

  /** `get_creds()` decrypts every row or fails: on success there is one record per row, in table order. */
  lemma {:induction false} DecryptRowsPointwise(priv: Option<PrivateKey>, rows: seq<Row>)
    ensures DecryptRows(priv, rows).Ok? <==> forall i :: 0 <= i < |rows| ==> DecryptRow(priv, rows[i]).Ok?
    ensures DecryptRows(priv, rows).Ok? ==>
      |DecryptRows(priv, rows).value| == |rows|
      && forall i :: 0 <= i < |rows| ==> DecryptRows(priv, rows).value[i] == DecryptRow(priv, rows[i]).value
  {
    if rows != [] {
      var front := rows[..|rows| - 1];
      DecryptRowsPointwise(priv, front);
      assert forall i :: 0 <= i < |front| ==> front[i] == rows[i];
    }
  }

  /** `list_providers` masks every row or fails: on success there is one entry per row, in table order. */
  lemma {:induction false} MaskRowsPointwise(priv: Option<PrivateKey>, rows: seq<Row>)
    ensures MaskRows(priv, rows).Ok? <==> forall i :: 0 <= i < |rows| ==> MaskRow(priv, rows[i]).Ok?
    ensures MaskRows(priv, rows).Ok? ==>
      |MaskRows(priv, rows).value| == |rows|
      && forall i :: 0 <= i < |rows| ==> MaskRows(priv, rows).value[i] == MaskRow(priv, rows[i]).value
  {
    if rows != [] {
      var front := rows[..|rows| - 1];
      var last := rows[|rows| - 1];
      MaskRowsPointwise(priv, front);
      assert forall i :: 0 <= i < |front| ==> front[i] == rows[i];
      if MaskRows(priv, front).Ok? && MaskRow(priv, last).Ok? {
        assert MaskRows(priv, rows) == Ok(MaskRows(priv, front).value + [MaskRow(priv, last).value]);
      }
    }
  }

  /** The listed view and the decrypted view fail on exactly the same rows. */
  lemma MaskIffDecrypt(priv: Option<PrivateKey>, row: Row)
    ensures MaskRow(priv, row).Ok? <==> DecryptRow(priv, row).Ok?
  {
  }

  /** The masked api key depends only on the first two characters: keys that share them look alike. */
  lemma ApiKeyMaskHides(k1: string, k2: string)
    requires |k1| >= 2 && |k2| >= 2 && k1[..2] == k2[..2]
    ensures MaskApiKey(Some(k1)) == MaskApiKey(Some(k2))
  {
  }

  /** The masked access key depends only on the first two and last two characters. */
  lemma AccessKeyMaskHides(k1: string, k2: string)
    requires |k1| >= 2 && |k2| >= 2
    requires k1[..2] == k2[..2] && k1[|k1| - 2..] == k2[|k2| - 2..]
    ensures MaskAccessKey(Some(k1)) == MaskAccessKey(Some(k2))
  {
  }

  /** A masked key shows at most two (api key) or four (access key) characters of the key besides the stars. */
  lemma MaskLengths(k: string)
    requires |k| > 0
    ensures |MaskApiKey(Some(k)).value| == Min(2, |k|) + |Stars|
    ensures |MaskAccessKey(Some(k)).value| == 2 * Min(2, |k|) + |Stars|
  {
  }

  /** The listing shows every row in table order with its service, label and raw settings, the keys masked and the secret as stars only. */
  lemma ListedView(priv: Option<PrivateKey>, rows: seq<Row>)
    requires MaskRows(priv, rows).Ok?
    ensures |MaskRows(priv, rows).value| == |rows|
    ensures forall i :: 0 <= i < |rows| ==>
      && DecryptRow(priv, rows[i]).Ok?
      && MaskRows(priv, rows).value[i].serviceName == rows[i].serviceName
      && MaskRows(priv, rows).value[i].name == rows[i].name
      && MaskRows(priv, rows).value[i].secret == Stars
      && MaskRows(priv, rows).value[i].otherSetting == rows[i].otherSetting
      && MaskRows(priv, rows).value[i].apiKey == MaskApiKey(DecryptRow(priv, rows[i]).value.apiKey)
      && MaskRows(priv, rows).value[i].accessKey == MaskAccessKey(DecryptRow(priv, rows[i]).value.accessKey)
  {
    MaskRowsPointwise(priv, rows);
  }
}
