/**
The encryption key of the stored secrets: setting, changing and removing the master password, unlocking,
saving and importing profiles, and starting the process, with failures and crashes. Each call is atomic
apart from its crash points. The cipher is ideal: a ciphertext opens only under the key that sealed it.
Key derivation and the verifier's MAC are injective; machine and salt are fixed.
*/
module Rekeying {
  import opened Objects

  datatype Key = Derived(passphrase: string)

  /** What a secret column holds. */
  datatype Cipher = Blank | Sealed(key: Key, plaintext: string)

  datatype Verifier = Mac(key: Key)

  datatype Row = Row(name: string, secret: Cipher, token: Cipher)

  type ProfileId = int

  /** `verifier` is the master_password_verifier row of the settings. */
  datatype Db = Db(profiles: map<ProfileId, Row>, nextId: ProfileId, verifier: Option<Verifier>)

  /** `keyBox` is lost when the process ends. */
  datatype State = State(db: Db, keyBox: Option<Key>)

  const MACHINE_KEY := Derived("")

  function Encrypt(plaintext: string, key: Key): Cipher {
    Sealed(key, plaintext)
  }

  /** A blank column is no ciphertext: it is shorter than a nonce. */
  function Decrypt(c: Cipher, key: Key): Option<string> {
    if c.Sealed? && c.key == key then Some(c.plaintext) else None
  }

  // ----- re-encryption -----

  function ReencryptValue(c: Cipher, oldKey: Key, newKey: Key): Option<Cipher> {
    match Decrypt(c, oldKey)
    case None => None
    case Some(plaintext) => Some(Encrypt(plaintext, newKey))
  }

  /** A blank token is left alone; a blank secret is not. */
  function ReencryptRow(row: Row, oldKey: Key, newKey: Key): Option<Row> {
    match ReencryptValue(row.secret, oldKey, newKey)
    case None => None
    case Some(secret) =>
      if row.token == Blank then Some(row.(secret := secret))
      else
        match ReencryptValue(row.token, oldKey, newKey)
        case None => None
        case Some(token) => Some(row.(secret := secret, token := token))
  }

  predicate CanReencrypt(profiles: map<ProfileId, Row>, oldKey: Key, newKey: Key) {
    forall id :: id in profiles ==> ReencryptRow(profiles[id], oldKey, newKey).Some?
  }

  function Reencrypted(profiles: map<ProfileId, Row>, oldKey: Key, newKey: Key): map<ProfileId, Row>
    requires CanReencrypt(profiles, oldKey, newKey)
  {
    map id | id in profiles :: ReencryptRow(profiles[id], oldKey, newKey).value
  }

  // ----- operations -----

  datatype Error = Locked | DeriveFailed | WrongPassword | TxFailed | NotFound | Invalid | DuplicateName

  datatype CallResult = Ok(id: ProfileId) | Failed(error: Error) | Died

  /** What goes wrong in a call that derives a key and runs a transaction. */
  datatype Fault = NoFault | DeriveFails | TxFails | CrashBeforeCommit | CrashAfterCommit

  /** SaveProfile's argument; `valid` is whether its other fields pass validation. */
  datatype Draft = Draft(id: ProfileId, name: string, secret: string, token: string, valid: bool)

  datatype Event =
    | Start(readFails: bool)                 // the process is killed, if it runs, and starts again
    | SetMasterPassword(password: string, fault: Fault)
    | RemoveMasterPassword(password: string, fault: Fault)
    | Unlock(password: string, deriveFails: bool)
    | SaveProfile(draft: Draft, writeFails: bool)
    | ImportProfile(name: string, validEndpoint: bool, writeFails: bool)
    | DeleteProfile(id: ProfileId)

  /** When it cannot tell whether there is a master password, the application stays locked. */
  function StartKeyBox(db: Db, readFails: bool): Option<Key> {
    if readFails || db.verifier.Some? then None else Some(MACHINE_KEY)
  }

  predicate Verifies(db: Db, candidate: Key) {
    db.verifier == Some(Mac(candidate))
  }

  /** reencryptTx: all rows and the verifier change together, or nothing does; a crash leaves no process,
      and the committed table or the old one. */
  function Rekey(s: State, oldKey: Key, newKey: Key, verifier: Option<Verifier>, fault: Fault): (State, CallResult) {
    if fault == CrashBeforeCommit then (s.(keyBox := None), Died)
    else if fault == TxFails || !CanReencrypt(s.db.profiles, oldKey, newKey) then (s, Failed(TxFailed))
    else
      var db := s.db.(profiles := Reencrypted(s.db.profiles, oldKey, newKey), verifier := verifier);
      if fault == CrashAfterCommit then (State(db, None), Died) else (State(db, Some(newKey)), Ok(0))
  }

  function SetPassword(s: State, password: string, fault: Fault): (State, CallResult) {
    if s.keyBox.None? then (s, Failed(Locked))
    else if fault == DeriveFails then (s, Failed(DeriveFailed))
    else Rekey(s, s.keyBox.value, Derived(password), Some(Mac(Derived(password))), fault)
  }

  function RemovePassword(s: State, password: string, fault: Fault): (State, CallResult) {
    if fault == DeriveFails then (s, Failed(DeriveFailed))
    else if !Verifies(s.db, Derived(password)) then (s, Failed(WrongPassword))
    else Rekey(s, Derived(password), MACHINE_KEY, None, fault)
  }

  function UnlockWith(s: State, password: string, deriveFails: bool): (State, CallResult) {
    if deriveFails then (s, Failed(DeriveFailed))
    else if !Verifies(s.db, Derived(password)) then (s, Failed(WrongPassword))
    else (s.(keyBox := Some(Derived(password))), Ok(0))
  }

  predicate NameTaken(db: Db, name: string, except: ProfileId) {
    exists id :: id in db.profiles && id != except && db.profiles[id].name == name
  }

  predicate KeepsSecret(draft: Draft) {
    draft.id != 0 && draft.secret == ""
  }

  /** The checks SaveProfile makes once it holds a key; the secret it keeps is a ciphertext already. */
  function SaveCheck(db: Db, draft: Draft): Option<Error> {
    if KeepsSecret(draft) && draft.id !in db.profiles then Some(NotFound)
    else if !draft.valid || draft.name == "" then Some(Invalid)
    else if (if KeepsSecret(draft) then db.profiles[draft.id].secret == Blank else draft.secret == "")
    then Some(Invalid)
    else if NameTaken(db, draft.name, draft.id) then Some(DuplicateName)
    else None
  }

  /** The row SaveProfile writes. */
  function SavedRow(db: Db, draft: Draft, key: Key): Row
    requires SaveCheck(db, draft).None?
  {
    Row(draft.name,
        if KeepsSecret(draft) then db.profiles[draft.id].secret else Encrypt(draft.secret, key),
        if draft.token == "" then Blank else Encrypt(draft.token, key))
  }

  /** Create for a new profile, Update for an existing one. The table's names are unique. */
  function WriteRow(db: Db, id: ProfileId, row: Row): Option<Db> {
    if NameTaken(db, row.name, id) then None
    else if id == 0 then Some(db.(profiles := db.profiles[db.nextId := row], nextId := db.nextId + 1))
    else if id in db.profiles then Some(db.(profiles := db.profiles[id := row]))
    else None
  }

  function Save(s: State, draft: Draft, writeFails: bool): (State, CallResult) {
    if s.keyBox.None? then (s, Failed(Locked))
    else if SaveCheck(s.db, draft).Some? then (s, Failed(SaveCheck(s.db, draft).value))
    else if writeFails then (s, Failed(TxFailed))
    else
      match WriteRow(s.db, draft.id, SavedRow(s.db, draft, s.keyBox.value))
      case None => (s, Failed(NotFound))
      case Some(db) => (s.(db := db), Ok(if draft.id == 0 then s.db.nextId else draft.id))
  }

  /** Imported profiles come without secrets, and need no key. */
  function Import(s: State, name: string, validEndpoint: bool, writeFails: bool): (State, CallResult) {
    if name == "" || !validEndpoint || NameTaken(s.db, name, 0) || writeFails then (s, Failed(Invalid))
    else
      (s.(db := s.db.(profiles := s.db.profiles[s.db.nextId := Row(name, Blank, Blank)], nextId := s.db.nextId + 1)),
       Ok(s.db.nextId))
  }

  function Delete(s: State, id: ProfileId): (State, CallResult) {
    if id in s.db.profiles then (s.(db := s.db.(profiles := s.db.profiles - {id})), Ok(id)) else (s, Failed(NotFound))
  }

  function Step(s: State, e: Event): (State, CallResult) {
    match e
    case Start(readFails) => (s.(keyBox := StartKeyBox(s.db, readFails)), Ok(0))
    case SetMasterPassword(password, fault) => SetPassword(s, password, fault)
    case RemoveMasterPassword(password, fault) => RemovePassword(s, password, fault)
    case Unlock(password, deriveFails) => UnlockWith(s, password, deriveFails)
    case SaveProfile(draft, writeFails) => Save(s, draft, writeFails)
    case ImportProfile(name, validEndpoint, writeFails) => Import(s, name, validEndpoint, writeFails)
    case DeleteProfile(id) => Delete(s, id)
  }

  // ----- what the user put in -----

  /** A profile's name and its secrets in plain text, "" for none. */
  datatype Plain = Plain(name: string, secret: string, token: string)

  type Vault = map<ProfileId, Plain>

  /** What the user means by a draft: a secret typed in is the secret from now on, none typed in leaves an
      existing profile the one it has. */
  function Meant(vault: Vault, draft: Draft): Plain {
    Plain(draft.name,
          if draft.secret != "" then draft.secret else if draft.id in vault then vault[draft.id].secret else "",
          draft.token)
  }

  /** What the user expects to read back, by calls and replies alone. */
  function VaultAfter(vault: Vault, e: Event, reply: CallResult): Vault {
    if !reply.Ok? then vault
    else
      match e
      case SaveProfile(draft, _) => vault[reply.id := Meant(vault, draft)]
      case ImportProfile(name, _, _) => vault[reply.id := Plain(name, "", "")]
      case DeleteProfile(id) => vault - {id}
      case _ => vault
  }

  function RunState(s: State, events: seq<Event>): State {
    if events == [] then s else Step(RunState(s, events[..|events| - 1]), events[|events| - 1]).0
  }

  function RunVault(s: State, vault: Vault, events: seq<Event>): Vault {
    if events == [] then vault
    else
      var front, e := events[..|events| - 1], events[|events| - 1];
      VaultAfter(RunVault(s, vault, front), e, Step(RunState(s, front), e).1)
  }

  // ----- the invariant -----

  /** The column is blank exactly for no secret, and otherwise opens under the key to the plaintext. */
  predicate Holds(c: Cipher, plaintext: string, key: Key) {
    if plaintext == "" then c == Blank else Decrypt(c, key) == Some(plaintext)
  }

  /** The key all stored secrets are sealed with. */
  function CurrentKey(db: Db): Key {
    match db.verifier
    case None => MACHINE_KEY
    case Some(v) => v.key
  }

  /** Every secret reads back under the one current key: the machine key without a verifier row, the
      verifier's key with one. A filled KeyBox holds that key. */
  ghost predicate Inv(s: State, vault: Vault) {
    && s.db.profiles.Keys == vault.Keys
    && s.db.nextId > 0
    && (forall id :: id in s.db.profiles ==>
          && 0 < id < s.db.nextId
          && s.db.profiles[id].name == vault[id].name
          && Holds(s.db.profiles[id].secret, vault[id].secret, CurrentKey(s.db))
          && Holds(s.db.profiles[id].token, vault[id].token, CurrentKey(s.db)))
    && NamesAreDistinct(vault)
    && (s.keyBox.Some? ==> s.keyBox.value == CurrentKey(s.db))
  }

  ghost predicate NamesAreDistinct(vault: Vault) {
    forall i, j :: i in vault && j in vault && i != j ==> vault[i].name != vault[j].name
  }

  lemma RowReencrypts(row: Row, plain: Plain, oldKey: Key, newKey: Key)
    requires Holds(row.secret, plain.secret, oldKey) && Holds(row.token, plain.token, oldKey)
    ensures ReencryptRow(row, oldKey, newKey).Some? <==> plain.secret != ""
    ensures plain.secret != "" ==>
      var row' := ReencryptRow(row, oldKey, newKey).value;
      && row'.name == row.name && Holds(row'.secret, plain.secret, newKey) && Holds(row'.token, plain.token, newKey)
  {
  }

  /** Some profile has no secret, as every imported one at first. */
  predicate HasBlankSecret(vault: Vault) {
    exists id :: id in vault && vault[id].secret == ""
  }

  /** Re-keying can go through exactly when no profile has a blank secret. */
  lemma ReencryptsIffNoBlank(s: State, vault: Vault, newKey: Key)
    requires Inv(s, vault)
    ensures CanReencrypt(s.db.profiles, CurrentKey(s.db), newKey) <==> !HasBlankSecret(vault)
  {
    forall id | id in s.db.profiles
      ensures ReencryptRow(s.db.profiles[id], CurrentKey(s.db), newKey).Some? <==> vault[id].secret != ""
    {
      RowReencrypts(s.db.profiles[id], vault[id], CurrentKey(s.db), newKey);
    }
  }

  lemma RekeyKeepsInv(s: State, vault: Vault, newKey: Key, verifier: Option<Verifier>, fault: Fault)
    requires Inv(s, vault)
    requires newKey == (match verifier case None => MACHINE_KEY case Some(v) => v.key)
    ensures var (s', reply) := Rekey(s, CurrentKey(s.db), newKey, verifier, fault);
      && Inv(s', vault)
      && (reply.Ok? <==> fault !in {TxFails, CrashBeforeCommit, CrashAfterCommit} && !HasBlankSecret(vault))
      && (reply.Failed? ==> s' == s)
  {
    ReencryptsIffNoBlank(s, vault, newKey);
    if CanReencrypt(s.db.profiles, CurrentKey(s.db), newKey) {
      forall id | id in s.db.profiles
        ensures var row' := Reencrypted(s.db.profiles, CurrentKey(s.db), newKey)[id];
          && row'.name == vault[id].name
          && Holds(row'.secret, vault[id].secret, newKey) && Holds(row'.token, vault[id].token, newKey)
      {
        RowReencrypts(s.db.profiles[id], vault[id], CurrentKey(s.db), newKey);
      }
    }
  }

  lemma SaveKeepsInv(s: State, vault: Vault, draft: Draft, writeFails: bool)
    requires Inv(s, vault)
    ensures var (s', reply) := Save(s, draft, writeFails);
            Inv(s', VaultAfter(vault, SaveProfile(draft, writeFails), reply))
  {
    var (s', reply) := Save(s, draft, writeFails);
    if reply.Ok? {
      assert s'.db.profiles == s.db.profiles[reply.id := SavedRow(s.db, draft, s.keyBox.value)];
    }
  }

  lemma StepKeepsInv(s: State, vault: Vault, e: Event)
    requires Inv(s, vault)
    ensures Inv(Step(s, e).0, VaultAfter(vault, e, Step(s, e).1))
  {
    match e
    case SetMasterPassword(password, fault) =>
      RekeyKeepsInv(s, vault, Derived(password), Some(Mac(Derived(password))), fault);
    case RemoveMasterPassword(_, fault) => RekeyKeepsInv(s, vault, MACHINE_KEY, None, fault);
    case SaveProfile(draft, writeFails) => SaveKeepsInv(s, vault, draft, writeFails);
    case _ =>
  }

  /** Through any calls, failures, crashes and restarts, every secret the user put in reads back under
      the current key. */
  lemma {:induction false} EveryRunKeepsSecrets(s: State, vault: Vault, events: seq<Event>)
    requires Inv(s, vault)
    ensures Inv(RunState(s, events), RunVault(s, vault, events))
  {
    if events != [] {
      var front := events[..|events| - 1];
      EveryRunKeepsSecrets(s, vault, front);
      StepKeepsInv(RunState(s, front), RunVault(s, vault, front), events[|events| - 1]);
    }
  }

  /** A call that answers with an error has changed nothing; a process that dies in a call leaves the
      whole change or none of it. */
  lemma AllOrNothing(s: State, e: Event)
    ensures Step(s, e).1.Failed? ==> Step(s, e).0 == s
    ensures Step(s, e).1.Died? ==>
      && (e.SetMasterPassword? || e.RemoveMasterPassword?)
      && (Step(s, e).0 == State(s.db, None) ||
          (Step(s, e.(fault := NoFault)).1.Ok? && Step(s, e).0 == State(Step(s, e.(fault := NoFault)).0.db, None)))
  {
  }

  /** Setting or changing the password succeeds exactly when the application is unlocked and no profile
      has a blank secret; removing it, when the password is right and no profile has one. */
  lemma RekeyingSucceedsIff(s: State, vault: Vault, password: string)
    requires Inv(s, vault)
    ensures Step(s, SetMasterPassword(password, NoFault)).1.Ok? <==> s.keyBox.Some? && !HasBlankSecret(vault)
    ensures Step(s, RemoveMasterPassword(password, NoFault)).1.Ok? <==>
      s.db.verifier == Some(Mac(Derived(password))) && !HasBlankSecret(vault)
  {
    RekeyKeepsInv(s, vault, Derived(password), Some(Mac(Derived(password))), NoFault);
    RekeyKeepsInv(s, vault, MACHINE_KEY, None, NoFault);
  }

  /** After a password was set, the next start is locked, and exactly that password unlocks it; after it
      was removed, the next start is unlocked. A crash right after the commit makes no difference. */
  lemma PasswordIsNeededAfterStart(s: State, password: string, fault: Fault, attempt: string)
    ensures var (s', reply) := Step(s, SetMasterPassword(password, fault));
      reply.Ok? || (reply.Died? && fault == CrashAfterCommit) ==>
        var locked := Step(s', Start(false)).0;
        && locked.keyBox == None
        && (Step(locked, Unlock(attempt, false)).1.Ok? <==> attempt == password)
    ensures var (s', reply) := Step(s, RemoveMasterPassword(password, fault));
      reply.Ok? || (reply.Died? && fault == CrashAfterCommit) ==>
        Step(s', Start(false)).0.keyBox == Some(MACHINE_KEY)
  {
  }

  // ----- what each call answers, and what it leaves -----

  predicate NameIsFree(vault: Vault, name: string, except: ProfileId) {
    forall id :: id in vault && id != except ==> vault[id].name != name
  }

  /** A profile is saved exactly when the application is unlocked, the draft is well-formed, its profile is new or
      exists, it has a secret of its own or one to keep, and its name is free. */
  lemma SaveSucceedsIff(s: State, vault: Vault, draft: Draft, writeFails: bool)
    requires Inv(s, vault)
    ensures Step(s, SaveProfile(draft, writeFails)).1.Ok? <==>
      && s.keyBox.Some? && !writeFails && draft.valid && draft.name != ""
      && (draft.id == 0 || draft.id in vault)
      && (draft.secret != "" || (draft.id in vault && vault[draft.id].secret != ""))
      && NameIsFree(vault, draft.name, draft.id)
  {
  }

  /** An imported one exactly when its endpoint is valid, and its name is given and free. */
  lemma ImportSucceedsIff(s: State, vault: Vault, name: string, validEndpoint: bool, writeFails: bool)
    requires Inv(s, vault)
    ensures Step(s, ImportProfile(name, validEndpoint, writeFails)).1.Ok? <==>
      !writeFails && validEndpoint && name != "" && NameIsFree(vault, name, 0)
  {
  }

  /** A saved profile reads back as its draft: with the secret typed in, or, where none was typed in for an
      existing profile, with the one it had; all other profiles read back as before. */
  lemma SavedReadsBack(s: State, vault: Vault, draft: Draft, id: ProfileId)
    requires Inv(s, vault) && Step(s, SaveProfile(draft, false)).1.Ok?
    ensures var (s', reply) := Step(s, SaveProfile(draft, false));
      && s'.keyBox == s.keyBox && s'.keyBox.Some?
      && (draft.id != 0 ==> reply.id == draft.id) && (draft.id == 0 ==> reply.id !in vault)
      && (draft.secret != "" ==>
            Resolve(s'.db, s'.keyBox.value, reply.id) == Some(Plain(draft.name, draft.secret, draft.token)))
      && (draft.secret == "" ==>
            && draft.id in vault
            && Resolve(s'.db, s'.keyBox.value, reply.id)
               == Some(Plain(draft.name, vault[draft.id].secret, draft.token)))
      && (id != reply.id ==>
            Resolve(s'.db, s'.keyBox.value, id) == if id in vault then Some(vault[id]) else None)
  {
    SaveKeepsInv(s, vault, draft, false);
    SaveSucceedsIff(s, vault, draft, false);
  }

  /** A password that was set or typed in right leaves the application open with its key, one that was removed
      with the machine's; no other call that answers opens or locks it. */
  lemma OpenAfterwards(s: State, password: string, draft: Draft, name: string, id: ProfileId)
    ensures Step(s, SetMasterPassword(password, NoFault)).1.Ok? ==>
      Step(s, SetMasterPassword(password, NoFault)).0.keyBox == Some(Derived(password))
    ensures Step(s, RemoveMasterPassword(password, NoFault)).1.Ok? ==>
      Step(s, RemoveMasterPassword(password, NoFault)).0.keyBox == Some(Derived(""))
    ensures Step(s, Unlock(password, false)).1.Ok? <==> s.db.verifier == Some(Mac(Derived(password)))
    ensures Step(s, Unlock(password, false)).1.Ok? ==>
      Step(s, Unlock(password, false)).0 == s.(keyBox := Some(Derived(password)))
    ensures Step(s, SaveProfile(draft, false)).0.keyBox == s.keyBox
    ensures Step(s, ImportProfile(name, true, false)).0.keyBox == s.keyBox
    ensures Step(s, DeleteProfile(id)).0.keyBox == s.keyBox
  {
  }

  // ----- reading secrets back -----

  /** ResolveProfile: a blank column stays blank. */
  function Resolve(db: Db, key: Key, id: ProfileId): Option<Plain> {
    if id !in db.profiles then None
    else
      var row := db.profiles[id];
      var secret := if row.secret == Blank then Some("") else Decrypt(row.secret, key);
      var token := if row.token == Blank then Some("") else Decrypt(row.token, key);
      if secret.None? || token.None? then None else Some(Plain(row.name, secret.value, token.value))
  }

  /** An unlocked application reads exactly what the user put in, whatever re-keying happened since. */
  lemma SecretsReadBack(s: State, vault: Vault, events: seq<Event>, id: ProfileId)
    requires Inv(s, vault)
    ensures var s', vault' := RunState(s, events), RunVault(s, vault, events);
      s'.keyBox.Some? ==> Resolve(s'.db, s'.keyBox.value, id) == if id in vault' then Some(vault'[id]) else None
  {
    EveryRunKeepsSecrets(s, vault, events);
  }

  // ----- a save that is overtaken -----

  /** The write of a SaveProfile call that took its key and its checks in the state `before`. */
  function LateWrite(before: State, now: State, draft: Draft): Option<Db>
    requires before.keyBox.Some? && SaveCheck(before.db, draft).None?
  {
    WriteRow(now.db, draft.id, SavedRow(before.db, draft, before.keyBox.value))
  }

  /** If other calls run between SaveProfile's key and its write, the secrets stay readable exactly when
      they have not changed the key; otherwise no re-keying can succeed any more, either. */
  lemma LateWriteIsSafeIffSameKey(before: State, now: State, vault: Vault, vaultNow: Vault, draft: Draft)
    requires Inv(before, vault) && Inv(now, vaultNow)
    requires before.keyBox.Some? && SaveCheck(before.db, draft).None? && LateWrite(before, now, draft).Some?
    ensures var db := LateWrite(before, now, draft).value;
      var id := if draft.id == 0 then now.db.nextId else draft.id;
      var vault' := vaultNow[id := Meant(vault, draft)];
      && (Inv(now.(db := db), vault') <==> CurrentKey(now.db) == CurrentKey(before.db))
      && (CurrentKey(now.db) != CurrentKey(before.db) ==>
            forall newKey :: !CanReencrypt(db.profiles, CurrentKey(db), newKey))
  {
    var db := LateWrite(before, now, draft).value;
    var id := if draft.id == 0 then now.db.nextId else draft.id;
    var row := SavedRow(before.db, draft, before.keyBox.value);
    assert db.profiles[id] == row && row.secret.Sealed? && row.secret.key == CurrentKey(before.db);
    if CurrentKey(now.db) != CurrentKey(before.db) {
      forall newKey ensures !CanReencrypt(db.profiles, CurrentKey(db), newKey) {
        assert ReencryptRow(db.profiles[id], CurrentKey(db), newKey).None?;
      }
    }
  }
}
