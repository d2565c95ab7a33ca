/** The vault's persistent state and its operations: the singleton metadata
    row holding the salt, and the entries table keyed uniquely by service.

    The two SQLite tables are abstract state: `metadata` is an optional
    single row (the schema's `CHECK (id = 1)` allows no second one) and
    `entries` is a map from service to row (the `UNIQUE` constraint on
    `service` allows one row per service). Every operation commits before it
    returns, so each method below is one atomic step on that state. */
module VaultStore {
  import opened Results
  import opened VaultCrypto
  import opened StringOrder

  /** An ISO-8601 UTC timestamp as stored in the `created_at` columns. */
  type Timestamp = string

  datatype Metadata = Metadata(salt: Salt, createdAt: Timestamp)

  /** A row of `entries`; the password column holds the Fernet token. */
  datatype Row = Row(username: string, password: Token, createdAt: Timestamp)

  /** What `get_entry` returns: the row with the password decrypted. */
  datatype Entry = Entry(service: string, username: string, password: string, createdAt: Timestamp)

  type Table = map<string, Row>

  /** The metadata row after `get_or_create_salt`: an existing row is kept,
      otherwise a row with the fresh random salt is stored. */
  function SaltRow(metadata: Option<Metadata>, randomSalt: Salt, now: Timestamp): (m: Metadata)
    ensures metadata.Some? ==> m == metadata.value
    ensures metadata.None? ==> m.salt == randomSalt && m.createdAt == now
  {
    match metadata
    case Some(row) => row
    case None => Metadata(randomSalt, now)
  }

  /** Once the salt exists, later calls return it unchanged, whatever fresh
      randomness they are offered. */
  lemma SaltCreatedOnce(metadata: Option<Metadata>, r1: Salt, t1: Timestamp, r2: Salt, t2: Timestamp)
    ensures SaltRow(Some(SaltRow(metadata, r1, t1)), r2, t2) == SaltRow(metadata, r1, t1)
  {
  }

  /** `INSERT ... ON CONFLICT(service) DO UPDATE SET username, password`:
      the new username and token, the original `created_at` of an existing
      row, and every other row untouched. */
  function Upsert(table: Table, service: string, username: string, password: Token, now: Timestamp): (t: Table)
    ensures t.Keys == table.Keys + {service}
    ensures t[service].username == username && t[service].password == password
    ensures t[service].createdAt == if service in table then table[service].createdAt else now
    ensures forall s :: s in table && s != service ==> t[s] == table[s]
  {
    var createdAt := if service in table then table[service].createdAt else now;
    table[service := Row(username, password, createdAt)]
  }

  /** `get_entry`: None for an absent service, otherwise the row with its
      password decrypted; a token that does not open under `key` raises. */
  function GetEntry(table: Table, service: string, key: Key): (r: Result<Option<Entry>, CryptoError>)
    ensures r == Success(None) <==> service !in table
    ensures r.Failure? <==> service in table && Decrypt(key, table[service].password).Failure?
    ensures r.Success? && r.value.Some? ==>
      r.value.value == Entry(service, table[service].username,
                             Decrypt(key, table[service].password).value, table[service].createdAt)
  {
    if service !in table then Success(None)
    else
      var row := table[service];
      match Decrypt(key, row.password)
      case Failure(e) => Failure(e)
      case Success(plain) => Success(Some(Entry(service, row.username, plain, row.createdAt)))
  }

  /** `list_services`: every stored service once, in ascending BINARY order. */
  function ListServices(table: Table): (r: seq<string>)
    ensures StrictlyAscending(r)
    ensures forall s :: s in r <==> s in table
    ensures |r| == |table|
  {
    SortedList(table.Keys)
  }

  /** After an add, `get_entry` with the same key returns the raw password
      and the new username; `created_at` is the original one if the service
      was already stored. */
  lemma AddThenGet(table: Table, service: string, username: string, raw: string, key: Key, nonce: nat, now: Timestamp)
    ensures GetEntry(Upsert(table, service, username, Encrypt(key, raw, nonce), now), service, key)
         == Success(Some(Entry(service, username, raw,
                               if service in table then table[service].createdAt else now)))
  {
    DecryptEncrypt(key, raw, nonce);
  }

  /** An add leaves what every other service reads unchanged. */
  lemma AddKeepsOthers(table: Table, service: string, username: string, token: Token, now: Timestamp,
                       other: string, key: Key)
    requires other != service
    ensures GetEntry(Upsert(table, service, username, token, now), other, key) == GetEntry(table, other, key)
  {
  }

  /** Two adds for one service leave one row, holding the second username. */
  lemma UpsertTwice(table: Table, key: Key, n1: nat, n2: nat, t1: Timestamp, t2: Timestamp)
    requires "github" !in table
    ensures var t := Upsert(Upsert(table, "github", "alice", Encrypt(key, "pw1", n1), t1),
                            "github", "alice2", Encrypt(key, "pw2", n2), t2);
      && t.Keys == table.Keys + {"github"}
      && GetEntry(t, "github", key) == Success(Some(Entry("github", "alice2", "pw2", t1)))
  {
    var t0 := Upsert(table, "github", "alice", Encrypt(key, "pw1", n1), t1);
    AddThenGet(t0, "github", "alice2", "pw2", key, n2, t2);
  }

  /** After a delete the service reads as absent, and the others as before. */
  lemma DeleteThenGet(table: Table, service: string, other: string, key: Key)
    ensures GetEntry(table - {service}, service, key) == Success(None)
    ensures other != service ==> GetEntry(table - {service}, other, key) == GetEntry(table, other, key)
  {
  }

  /** Reopening the vault: the key derived again from the same master
      password and the stored salt opens the entry; any other master password
      derives another key, and the read fails with InvalidToken. */
  lemma ReopenVault(table: Table, salt: Salt, master: string, wrong: string,
                    service: string, username: string, raw: string, nonce: nat, now: Timestamp)
    requires wrong != master
    ensures var t := Upsert(table, service, username, Encrypt(DeriveKey(master, salt), raw, nonce), now);
      && GetEntry(t, service, DeriveKey(master, salt)).Success?
      && GetEntry(t, service, DeriveKey(master, salt)).value.Some?
      && GetEntry(t, service, DeriveKey(master, salt)).value.value.password == raw
      && GetEntry(t, service, DeriveKey(wrong, salt)) == Failure(InvalidToken)
  {
    AddThenGet(table, service, username, raw, DeriveKey(master, salt), nonce, now);
    DeriveKeyInjective(master, salt, wrong, salt);
  }

  /** Services added as "zeta", "alpha", "mike" are listed as "alpha", "mike", "zeta". */
  lemma ListIsSorted(r1: Row, r2: Row, r3: Row)
    ensures ListServices(map["zeta" := r1, "alpha" := r2, "mike" := r3]) == ["alpha", "mike", "zeta"]
  {
    var table := map["zeta" := r1, "alpha" := r2, "mike" := r3];
    var expected := ["alpha", "mike", "zeta"];
    assert Below("alpha", "mike") && Below("mike", "zeta") && Below("alpha", "zeta");
    assert StrictlyAscending(expected);
    AscendingUnique(ListServices(table), expected);
  }

  /** The vault database: the metadata row and the entries table. */
  class VaultDb {
    var metadata: Option<Metadata>
    var entries: Table

    /** A new vault file after `init_db`: both tables exist and are empty. */
    constructor ()
      ensures metadata == None && entries == map[]
    {
      metadata := None;
      entries := map[];
    }

    /** `get_or_create_salt`: the stored salt, or a fresh 16-byte salt stored
        under id 1; the entries are not touched. */
    method GetOrCreateSalt(randomSalt: Salt, now: Timestamp) returns (salt: Salt)
      modifies this`metadata
      ensures metadata == Some(SaltRow(old(metadata), randomSalt, now))
      ensures salt == metadata.value.salt
      ensures old(metadata).Some? ==> salt == old(metadata).value.salt
    {
      match metadata {
        case Some(row) =>
          salt := row.salt;
        case None =>
          salt := randomSalt;
          metadata := Some(Metadata(randomSalt, now));
      }
    }

    /** `encrypt_password`: obtain the salt and derive the session key from
        the master password. */
    method Unlock(masterPassword: string, randomSalt: Salt, now: Timestamp) returns (key: Key)
      modifies this`metadata
      ensures metadata == Some(SaltRow(old(metadata), randomSalt, now))
      ensures key == DeriveKey(masterPassword, metadata.value.salt)
    {
      var salt := GetOrCreateSalt(randomSalt, now);
      key := DeriveKey(masterPassword, salt);
    }

    /** `add_entry`: encrypt the raw password and upsert the row. */
    method AddEntry(service: string, username: string, rawPassword: string, key: Key, nonce: nat, now: Timestamp)
      modifies this`entries
      ensures entries == Upsert(old(entries), service, username, Encrypt(key, rawPassword, nonce), now)
    {
      var encrypted := Encrypt(key, rawPassword, nonce);
      entries := Upsert(entries, service, username, encrypted, now);
    }

    /** `delete_entry`: remove the service's row; true iff there was one. */
    method DeleteEntry(service: string) returns (removed: bool)
      modifies this`entries
      ensures removed <==> service in old(entries)
      ensures entries == old(entries) - {service}
    {
      removed := service in entries;
      entries := entries - {service};
    }
  }

  /** One session after another on a new vault file, as the command-line
      menu drives them: the entry added in the first session reads back in
      the second under the same master password whatever salt is offered,
      another master password cannot open it, and deleting reports whether
      a row was there. */
  method SessionScenario(salt1: Salt, salt2: Salt, now: Timestamp, nonce: nat)
    returns (found: Result<Option<Entry>, CryptoError>, wrong: Result<Option<Entry>, CryptoError>,
             removedMissing: bool, removed: bool, afterDelete: Result<Option<Entry>, CryptoError>)
    ensures found == Success(Some(Entry("email", "bob", "s3cr3t", now)))
    ensures wrong == Failure(InvalidToken)
    ensures !removedMissing && removed
    ensures afterDelete == Success(None)
  {
    var db := new VaultDb();
    var key := db.Unlock("correct-horse", salt1, now);
    db.AddEntry("email", "bob", "s3cr3t", key, nonce, now);

    var again := db.Unlock("correct-horse", salt2, now);
    found := GetEntry(db.entries, "email", again);

    var wrongKey := db.Unlock("wrong-horse", salt2, now);
    wrong := GetEntry(db.entries, "email", wrongKey);

    removedMissing := db.DeleteEntry("nonexistent");
    removed := db.DeleteEntry("email");
    afterDelete := GetEntry(db.entries, "email", key);
  }
}
