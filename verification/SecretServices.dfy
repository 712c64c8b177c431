/**
KeyBox, SettingsService and ConnectionService over shared state updated in place. Each method is proved
to be the step of Rekeying it carries out; the faults are the caller's choice.
*/
module SecretServices {
  import opened Objects
  import opened Rekeying

  class KeyBox {
    var key: Key
    var isSet: bool

    constructor ()
      ensures Held() == None
    {
      key, isSet := Derived(""), false;
    }

    ghost function Held(): Option<Key>
      reads this
    {
      if isSet then Some(key) else None
    }

    method Set(key: Key)
      modifies this
      ensures Held() == Some(key)
    {
      this.key, isSet := key, true;
    }

    method Get() returns (key: Key, ok: bool)
      ensures ok == Held().Some? && (ok ==> key == Held().value)
    {
      key, ok := this.key, isSet;
    }

    method Clear()
      modifies this
      ensures Held() == None
    {
      key, isSet := Derived(""), false;
    }
  }

  /** The profiles table and the verifier row. */
  class Database {
    var profiles: map<ProfileId, Row>
    var nextId: ProfileId
    var verifier: Option<Verifier>

    ghost function View(): Db
      reads this
    {
      Db(profiles, nextId, verifier)
    }

    constructor (db: Db)
      ensures View() == db
    {
      profiles, nextId, verifier := db.profiles, db.nextId, db.verifier;
    }
  }

  /** A row drained from the cursor before any update. */
  datatype ReencryptRecord = ReencryptRecord(id: ProfileId, secret: Cipher, token: Cipher)

  /** The rows of a table, each once. */
  ghost predicate AreRowsOf(rows: seq<ReencryptRecord>, profiles: map<ProfileId, Row>) {
    && (forall i :: 0 <= i < |rows| ==>
          rows[i].id in profiles
          && profiles[rows[i].id].secret == rows[i].secret && profiles[rows[i].id].token == rows[i].token)
    && (forall i, j :: 0 <= i < j < |rows| ==> rows[i].id != rows[j].id)
    && (forall id :: id in profiles ==> HasRow(rows, id))
  }

  ghost predicate HasRow(rows: seq<ReencryptRecord>, id: ProfileId) {
    exists i :: 0 <= i < |rows| && rows[i].id == id
  }

  /** ReencryptSecretsTx on the transaction's view of the table: it stops at the first row it cannot
      re-encrypt. */
  method ReencryptSecretsTx(profiles: map<ProfileId, Row>, rows: seq<ReencryptRecord>, oldKey: Key, newKey: Key)
    returns (ok: bool, after: map<ProfileId, Row>)
    requires AreRowsOf(rows, profiles)
    ensures ok == CanReencrypt(profiles, oldKey, newKey)
    ensures ok ==> after == Reencrypted(profiles, oldKey, newKey)
  {
    after := profiles;
    var i := 0;
    while i < |rows|
      invariant 0 <= i <= |rows| && after.Keys == profiles.Keys
      invariant forall j :: 0 <= j < i ==>
        ReencryptRow(profiles[rows[j].id], oldKey, newKey) == Some(after[rows[j].id])
      invariant forall j :: i <= j < |rows| ==> after[rows[j].id] == profiles[rows[j].id]
    {
      var row := rows[i];
      var secret := ReencryptValue(row.secret, oldKey, newKey);
      if secret.None? {
        return false, profiles;
      }
      var newToken := row.token;
      if row.token != Blank {
        var token := ReencryptValue(row.token, oldKey, newKey);
        if token.None? {
          return false, profiles;
        }
        newToken := token.value;
      }
      after := after[row.id := after[row.id].(secret := secret.value, token := newToken)];
      i := i + 1;
    }
    ok := true;
    forall id | id in profiles ensures ReencryptRow(profiles[id], oldKey, newKey) == Some(after[id]) {
      assert HasRow(rows, id);
    }
  }

  class SettingsService {
    const db: Database
    const keyBox: KeyBox

    constructor (db: Database, keyBox: KeyBox)
      ensures this.db == db && this.keyBox == keyBox
    {
      this.db, this.keyBox := db, keyBox;
    }

    ghost function View(): State
      reads db, keyBox
    {
      State(db.View(), keyBox.Held())
    }

    /** NewApp's part: the machine key opens an application without a master password. */
    method Start(readFails: bool)
      modifies keyBox
      ensures View() == Step(old(View()), Event.Start(readFails)).0
    {
      keyBox.Clear();
      var hasPassword := readFails || db.verifier.Some?;
      if !hasPassword {
        keyBox.Set(MACHINE_KEY);
      }
    }

    method VerifyCandidate(candidate: Key) returns (ok: bool)
      ensures ok == Verifies(db.View(), candidate)
    {
      ok := db.verifier.Some? && db.verifier.value == Mac(candidate);
    }

    /** reencryptTx: commits the rows and the verifier together, or rolls both back. */
    method ReencryptTx(oldKey: Key, newKey: Key, verifier: Option<Verifier>, rows: seq<ReencryptRecord>, fails: bool)
      returns (ok: bool)
      requires AreRowsOf(rows, db.profiles)
      modifies db
      ensures ok == (!fails && CanReencrypt(old(db.profiles), oldKey, newKey))
      ensures db.View() ==
        if ok then old(db.View()).(profiles := Reencrypted(old(db.profiles), oldKey, newKey), verifier := verifier)
        else old(db.View())
    {
      var tx: map<ProfileId, Row>;
      ok, tx := ReencryptSecretsTx(db.profiles, rows, oldKey, newKey);
      ok := ok && !fails;
      if ok {
        db.profiles, db.verifier := tx, verifier;
      }
    }

    method SetMasterPassword(password: string, rows: seq<ReencryptRecord>, fault: Fault) returns (reply: CallResult)
      requires AreRowsOf(rows, db.profiles) && fault in {NoFault, DeriveFails, TxFails}
      modifies db, keyBox
      ensures (View(), reply) == Step(old(View()), Event.SetMasterPassword(password, fault))
    {
      var oldKey, unlocked := keyBox.Get();
      if !unlocked {
        return Failed(Locked);
      }
      if fault == DeriveFails {
        return Failed(DeriveFailed);
      }
      var newKey := Derived(password);
      var done := ReencryptTx(oldKey, newKey, Some(Mac(newKey)), rows, fault == TxFails);
      if !done {
        return Failed(TxFailed);
      }
      keyBox.Set(newKey);
      reply := Ok(0);
    }

    method RemoveMasterPassword(password: string, rows: seq<ReencryptRecord>, fault: Fault) returns (reply: CallResult)
      requires AreRowsOf(rows, db.profiles) && fault in {NoFault, DeriveFails, TxFails}
      modifies db, keyBox
      ensures (View(), reply) == Step(old(View()), Event.RemoveMasterPassword(password, fault))
    {
      if fault == DeriveFails {
        return Failed(DeriveFailed);
      }
      var candidate := Derived(password);
      var verified := VerifyCandidate(candidate);
      if !verified {
        return Failed(WrongPassword);
      }
      var done := ReencryptTx(candidate, MACHINE_KEY, None, rows, fault == TxFails);
      if !done {
        return Failed(TxFailed);
      }
      keyBox.Set(MACHINE_KEY);
      reply := Ok(0);
    }

    method Unlock(password: string, deriveFails: bool) returns (reply: CallResult)
      modifies keyBox
      ensures (View(), reply) == Step(old(View()), Event.Unlock(password, deriveFails))
    {
      if deriveFails {
        return Failed(DeriveFailed);
      }
      var candidate := Derived(password);
      var verified := VerifyCandidate(candidate);
      if !verified {
        return Failed(WrongPassword);
      }
      keyBox.Set(candidate);
      reply := Ok(0);
    }
  }

  class ConnectionService {
    const db: Database
    const keyBox: KeyBox

    constructor (db: Database, keyBox: KeyBox)
      ensures this.db == db && this.keyBox == keyBox
    {
      this.db, this.keyBox := db, keyBox;
    }

    ghost function View(): State
      reads db, keyBox
    {
      State(db.View(), keyBox.Held())
    }

    method ExistsByName(name: string, except: ProfileId) returns (taken: bool)
      ensures taken == NameTaken(db.View(), name, except)
    {
      taken := exists id :: id in db.profiles && id != except && db.profiles[id].name == name;
    }

    /** It encrypts under the key it took first, and keeps an existing secret's ciphertext as it is. */
    method SaveProfile(draft: Draft, writeFails: bool) returns (reply: CallResult)
      modifies db
      ensures (View(), reply) == Step(old(View()), Event.SaveProfile(draft, writeFails))
    {
      var key, unlocked := keyBox.Get();
      if !unlocked {
        return Failed(Locked);
      }
      var keepExistingSecret := draft.id != 0 && draft.secret == "";
      if keepExistingSecret && draft.id !in db.profiles {
        return Failed(NotFound);
      }
      var noSecret := if keepExistingSecret then db.profiles[draft.id].secret == Blank else draft.secret == "";
      if !draft.valid || draft.name == "" || noSecret {
        return Failed(Invalid);
      }
      var taken := ExistsByName(draft.name, draft.id);
      if taken {
        return Failed(DuplicateName);
      }
      var secret := if keepExistingSecret then db.profiles[draft.id].secret else Encrypt(draft.secret, key);
      var token := if draft.token == "" then Blank else Encrypt(draft.token, key);
      if writeFails {
        return Failed(TxFailed);
      }
      var row := Row(draft.name, secret, token);
      if draft.id == 0 {
        reply := Ok(db.nextId);
        db.profiles, db.nextId := db.profiles[db.nextId := row], db.nextId + 1;
      } else if draft.id in db.profiles {
        reply := Ok(draft.id);
        db.profiles := db.profiles[draft.id := row];
      } else {
        reply := Failed(NotFound);
      }
    }

    method ImportProfile(name: string, validEndpoint: bool, writeFails: bool) returns (reply: CallResult)
      modifies db
      ensures (View(), reply) == Step(old(View()), Event.ImportProfile(name, validEndpoint, writeFails))
    {
      if name == "" || !validEndpoint {
        return Failed(Invalid);
      }
      var taken := ExistsByName(name, 0);
      if taken || writeFails {
        return Failed(Invalid);
      }
      reply := Ok(db.nextId);
      db.profiles, db.nextId := db.profiles[db.nextId := Row(name, Blank, Blank)], db.nextId + 1;
    }

    method DeleteProfile(id: ProfileId) returns (reply: CallResult)
      modifies db
      ensures (View(), reply) == Step(old(View()), Event.DeleteProfile(id))
    {
      if id !in db.profiles {
        return Failed(NotFound);
      }
      db.profiles := db.profiles - {id};
      reply := Ok(id);
    }
  }
}
