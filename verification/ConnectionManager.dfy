/**
The cache of S3 clients. A cached pair of clients is reused while the fingerprint of the profile is the
one they were built under. The hash is taken as collision-free, so a fingerprint stands for its hash.
*/
module ConnectionManager {
  import opened StringOrder
  import opened Objects

  /** The profile fields that go into the clients. */
  datatype Config = Config(
    endpointUrl: string, region: string, accessKeyId: string, secretAccessKey: string, sessionToken: string,
    pathStyle: bool, verifySsl: bool, headers: map<string, string>, proxyUrl: string)

  // ----- sorted header names -----

  ghost predicate IsSorted(keys: seq<string>) {
    forall i, j :: 0 <= i < j < |keys| ==> Less(keys[i], keys[j])
  }

  ghost predicate AreKeys(keys: seq<string>, headers: map<string, string>) {
    IsSorted(keys) && (forall k :: k in keys <==> k in headers)
  }

  /** There is one sorted list of a map's keys. */
  lemma {:induction false} SortedKeysAreUnique(a: seq<string>, b: seq<string>)
    requires IsSorted(a) && IsSorted(b) && forall k :: k in a <==> k in b
    ensures a == b
  {
    if a == [] {
      assert forall i :: 0 <= i < |b| ==> b[i] in a;
    } else {
      LeastComesFirst(a, b);
      RestHasRest(a, b);
      SortedKeysAreUnique(a[1..], b[1..]);
      assert a == [a[0]] + a[1..] && b == [b[0]] + b[1..];
    }
  }

  lemma LeastComesFirst(a: seq<string>, b: seq<string>)
    requires IsSorted(a) && IsSorted(b) && a != [] && forall k :: k in a <==> k in b
    ensures b != [] && a[0] == b[0]
  {
    assert a[0] in b;
    assert b[0] in a;
    var i :| 0 <= i < |b| && b[i] == a[0];
    var j :| 0 <= j < |a| && a[j] == b[0];
    LessIsTotal(a[0], b[0]);
  }

  lemma RestHasRest(a: seq<string>, b: seq<string>)
    requires IsSorted(a) && IsSorted(b) && a != [] && b != [] && a[0] == b[0] && forall k :: k in a <==> k in b
    ensures forall k :: k in a[1..] <==> k in b[1..]
  {
    forall k ensures k in a[1..] <==> k in b[1..] {
      LessIsTotal(a[0], a[0]);
      if k in a[1..] {
        assert k in a && k != a[0];
      }
      if k in b[1..] {
        assert k in b && k != b[0];
      }
      assert a == [a[0]] + a[1..] && b == [b[0]] + b[1..];
    }
  }

  /** Puts a key into its place among sorted ones. */
  function Inserted(keys: seq<string>, key: string): seq<string> {
    if keys == [] || Less(key, keys[0]) then [key] + keys else [keys[0]] + Inserted(keys[1..], key)
  }

  lemma {:induction false} InsertedIsSorted(keys: seq<string>, key: string)
    requires IsSorted(keys) && key !in keys
    ensures IsSorted(Inserted(keys, key))
    ensures forall k :: k in Inserted(keys, key) <==> k in keys || k == key
  {
    if keys != [] {
      LessIsTotal(key, keys[0]);
      if Less(key, keys[0]) {
        forall i | 1 <= i < |keys| ensures Less(key, keys[i]) {
          LessIsTransitive(key, keys[0], keys[i]);
        }
      } else {
        assert keys == [keys[0]] + keys[1..];
        InsertedIsSorted(keys[1..], key);
        var rest := Inserted(keys[1..], key);
        forall j | 0 <= j < |rest| ensures Less(keys[0], rest[j]) {
          assert rest[j] in rest;
        }
      }
    }
  }

  // ----- the fingerprint -----

  const NUL := "\0"
  const SOH := "\U{01}"

  function BoolText(b: bool): string {
    if b then "true" else "false"
  }

  /** Each field followed by a NUL. */
  function Joined(fields: seq<string>): string {
    if fields == [] then "" else fields[0] + NUL + Joined(fields[1..])
  }

  function HeaderField(key: string, value: string): string {
    key + SOH + value
  }

  function HeaderFields(keys: seq<string>, headers: map<string, string>): seq<string>
    requires forall i :: 0 <= i < |keys| ==> keys[i] in headers
  {
    seq(|keys|, i requires 0 <= i < |keys| => HeaderField(keys[i], headers[keys[i]]))
  }

  function FixedFields(c: Config): seq<string> {
    [c.endpointUrl, c.region, c.accessKeyId, c.secretAccessKey, c.sessionToken, BoolText(c.pathStyle),
     BoolText(c.verifySsl)]
  }

  ghost function Fields(c: Config): seq<string> {
    FixedFields(c) + HeaderFields(SortedKeys(c.headers), c.headers) + [c.proxyUrl]
  }

  /** The text profileHash hashes. */
  ghost function Fingerprint(c: Config): string {
    Joined(Fields(c))
  }

  ghost function SortedKeys(headers: map<string, string>): (keys: seq<string>)
    ensures AreKeys(keys, headers)
  {
    SortedKeysExist(headers);
    var keys :| AreKeys(keys, headers);
    keys
  }

  lemma {:induction false} SortedKeysExist(headers: map<string, string>)
    ensures exists keys :: AreKeys(keys, headers)
    decreases |headers|
  {
    if headers == map[] {
      assert AreKeys([], headers);
    } else {
      var key :| key in headers;
      var rest := headers - {key};
      SortedKeysExist(rest);
      var keys :| AreKeys(keys, rest);
      InsertedIsSorted(keys, key);
      assert AreKeys(Inserted(keys, key), headers);
    }
  }

  // ----- different profiles have different fingerprints -----

  predicate HasNoNul(s: string) {
    '\0' !in s
  }

  /** No NUL anywhere, and no SOH in a header's name. */
  predicate IsClean(c: Config) {
    && HasNoNul(c.endpointUrl) && HasNoNul(c.region) && HasNoNul(c.accessKeyId) && HasNoNul(c.secretAccessKey)
    && HasNoNul(c.sessionToken) && HasNoNul(c.proxyUrl)
    && forall k :: k in c.headers ==> HasNoNul(k) && '\U{01}' !in k && HasNoNul(c.headers[k])
  }

  /** How many characters precede the first c. */
  function Before(s: string, c: char): nat {
    if s == "" || s[0] == c then 0 else 1 + Before(s[1..], c)
  }

  lemma {:induction false} SeparatorIsFirst(a: string, c: char, rest: string)
    requires c !in a
    ensures Before(a + [c] + rest, c) == |a|
  {
    if a != "" {
      assert (a + [c] + rest)[1..] == a[1..] + [c] + rest;
      SeparatorIsFirst(a[1..], c, rest);
    }
  }

  /** A separator that occurs in neither left part splits a text in one way only. */
  lemma SplitIsUnique(a: string, b: string, separator: char, restA: string, restB: string)
    requires separator !in a && separator !in b
    requires a + [separator] + restA == b + [separator] + restB
    ensures a == b && restA == restB
  {
    var whole := a + [separator] + restA;
    SeparatorIsFirst(a, separator, restA);
    SeparatorIsFirst(b, separator, restB);
    assert a == whole[..|a|] && b == whole[..|b|];
    assert restA == whole[|a| + 1..] && restB == whole[|b| + 1..];
  }

  lemma {:induction false} JoinedIsInjective(a: seq<string>, b: seq<string>)
    requires forall i :: 0 <= i < |a| ==> HasNoNul(a[i])
    requires forall i :: 0 <= i < |b| ==> HasNoNul(b[i])
    requires Joined(a) == Joined(b)
    ensures a == b
  {
    if a != [] && b != [] {
      SplitIsUnique(a[0], b[0], '\0', Joined(a[1..]), Joined(b[1..]));
      JoinedIsInjective(a[1..], b[1..]);
      assert a == [a[0]] + a[1..] && b == [b[0]] + b[1..];
    }
  }

  lemma FieldsHaveNoNul(c: Config)
    requires IsClean(c)
    ensures forall i :: 0 <= i < |Fields(c)| ==> HasNoNul(Fields(c)[i])
  {
    var keys := SortedKeys(c.headers);
    forall i | 0 <= i < |keys| ensures HasNoNul(HeaderFields(keys, c.headers)[i]) {
      assert keys[i] in keys;
    }
  }

  lemma HeadersAreFound(a: Config, b: Config)
    requires IsClean(a) && IsClean(b)
    requires HeaderFields(SortedKeys(a.headers), a.headers) == HeaderFields(SortedKeys(b.headers), b.headers)
    ensures a.headers == b.headers
  {
    var keysA, keysB := SortedKeys(a.headers), SortedKeys(b.headers);
    var fieldsA, fieldsB := HeaderFields(keysA, a.headers), HeaderFields(keysB, b.headers);
    assert |keysA| == |fieldsA| == |fieldsB| == |keysB|;
    forall i | 0 <= i < |keysA| ensures keysA[i] == keysB[i] && a.headers[keysA[i]] == b.headers[keysB[i]] {
      assert keysA[i] in keysA && keysB[i] in keysB;
      assert fieldsA[i] == fieldsB[i];
      SplitIsUnique(keysA[i], keysB[i], '\U{01}', a.headers[keysA[i]], b.headers[keysB[i]]);
    }
    assert keysA == keysB;
    forall k | k in a.headers ensures a.headers[k] == b.headers[k] {
      assert k in keysA;
    }
  }

  /** Profiles without separators in their fields have the same fingerprint only if they are the same. */
  lemma FingerprintIsInjective(a: Config, b: Config)
    requires IsClean(a) && IsClean(b) && Fingerprint(a) == Fingerprint(b)
    ensures a == b
  {
    FieldsHaveNoNul(a);
    FieldsHaveNoNul(b);
    JoinedIsInjective(Fields(a), Fields(b));
    SameFields(a, b);
    HeadersAreFound(a, b);
  }

  lemma SameFields(a: Config, b: Config)
    requires Fields(a) == Fields(b)
    ensures HeaderFields(SortedKeys(a.headers), a.headers) == HeaderFields(SortedKeys(b.headers), b.headers)
    ensures a == b.(headers := a.headers)
  {
    var n := |FixedFields(a)|;
    var headersA := HeaderFields(SortedKeys(a.headers), a.headers);
    var headersB := HeaderFields(SortedKeys(b.headers), b.headers);
    assert Fields(a)[..n] == FixedFields(a) && Fields(b)[..n] == FixedFields(b);
    assert Fields(a)[n..n + |headersA|] == headersA && Fields(b)[n..n + |headersB|] == headersB;
    assert Fields(a)[n + |headersA|] == a.proxyUrl && Fields(b)[n + |headersB|] == b.proxyUrl;
    assert FixedFields(a)[0] == FixedFields(b)[0] && FixedFields(a)[1] == FixedFields(b)[1];
    assert FixedFields(a)[2] == FixedFields(b)[2] && FixedFields(a)[3] == FixedFields(b)[3];
    assert FixedFields(a)[4] == FixedFields(b)[4] && FixedFields(a)[5] == FixedFields(b)[5];
    assert FixedFields(a)[6] == FixedFields(b)[6];
    BoolTextIsInjective(a.pathStyle, b.pathStyle);
    BoolTextIsInjective(a.verifySsl, b.verifySsl);
  }

  lemma BoolTextIsInjective(a: bool, b: bool)
    ensures BoolText(a) == BoolText(b) ==> a == b
  {
    assert BoolText(true)[0] == 't' && BoolText(false)[0] == 'f';
  }

  // Both pass the validation of a profile.
  const SHIFTED_A := Config("https://h", "a\0", "b", "s", "", false, false, map[], "")
  const SHIFTED_B := Config("https://h", "a", "\0b", "s", "", false, false, map[], "")

  /** With a NUL inside a field two profiles can share a fingerprint. */
  lemma NulBreaksFingerprint()
    ensures SHIFTED_A != SHIFTED_B && Fingerprint(SHIFTED_A) == Fingerprint(SHIFTED_B)
  {
    var restA, restB := Fields(SHIFTED_A)[3..], Fields(SHIFTED_B)[3..];
    assert HeaderFields(SortedKeys(map[]), map[]) == HeaderFields(SortedKeys(SHIFTED_A.headers), SHIFTED_A.headers);
    assert restA == restB;
    JoinedFirstThree(Fields(SHIFTED_A));
    JoinedFirstThree(Fields(SHIFTED_B));
    assert "a\0" + NUL + ("b" + NUL + Joined(restA)) == "a" + NUL + ("\0b" + NUL + Joined(restB));
  }

  lemma JoinedFirstThree(fields: seq<string>)
    requires |fields| >= 3
    ensures Joined(fields) == fields[0] + NUL + (fields[1] + NUL + (fields[2] + NUL + Joined(fields[3..])))
  {
    assert fields[1..][1..] == fields[2..] && fields[2..][1..] == fields[3..];
    assert Joined(fields[2..]) == fields[2] + NUL + Joined(fields[3..]);
    assert Joined(fields[1..]) == fields[1] + NUL + Joined(fields[2..]);
  }

  /** Any profile's headers can be written into the proxy URL of one without headers. */
  ghost function WithoutHeaders(c: Config): Config {
    c.(headers := map[], proxyUrl := Joined(HeaderFields(SortedKeys(c.headers), c.headers)) + c.proxyUrl)
  }

  lemma FingerprintParts(c: Config)
    ensures Fingerprint(c)
         == Joined(FixedFields(c)) + (Joined(HeaderFields(SortedKeys(c.headers), c.headers)) + c.proxyUrl + NUL)
  {
    var headers := HeaderFields(SortedKeys(c.headers), c.headers);
    JoinedAdds(FixedFields(c) + headers, [c.proxyUrl]);
    JoinedAdds(FixedFields(c), headers);
    assert Joined([c.proxyUrl]) == c.proxyUrl + NUL;
  }

  lemma HeadersMoveToProxy(c: Config)
    ensures Fingerprint(WithoutHeaders(c)) == Fingerprint(c)
  {
    var moved := WithoutHeaders(c);
    FingerprintParts(c);
    FingerprintParts(moved);
    HeaderCount(moved);
    assert Joined(HeaderFields(SortedKeys(moved.headers), moved.headers)) == "";
    assert "" + moved.proxyUrl == moved.proxyUrl;
  }

  function Nuls(s: string): nat {
    if s == "" then 0 else Nuls(s[1..]) + if s[0] == '\0' then 1 else 0
  }

  lemma {:induction false} NulsAdd(a: string, b: string)
    ensures Nuls(a + b) == Nuls(a) + Nuls(b)
  {
    if a == "" {
      assert a + b == b;
    } else {
      assert (a + b)[1..] == a[1..] + b;
      NulsAdd(a[1..], b);
    }
  }

  lemma {:induction false} NoNuls(s: string)
    ensures Nuls(s) == 0 <==> HasNoNul(s)
  {
    if s != "" {
      assert s == [s[0]] + s[1..];
      NoNuls(s[1..]);
    }
  }

  /** The fields give one NUL each, and more exactly when one is inside a field. */
  lemma {:induction false} NulsOfJoined(fields: seq<string>)
    ensures Nuls(Joined(fields)) >= |fields|
    ensures Nuls(Joined(fields)) == |fields| <==> forall i :: 0 <= i < |fields| ==> HasNoNul(fields[i])
  {
    if fields != [] {
      NulsOfJoined(fields[1..]);
      NulsAdd(fields[0] + NUL, Joined(fields[1..]));
      NulsAdd(fields[0], NUL);
      assert Nuls(NUL) == 1;
      NoNuls(fields[0]);
      assert fields == [fields[0]] + fields[1..];
    }
  }

  lemma CleanWithoutHeaders(c: Config, other: Config)
    requires IsClean(c) && c.headers == map[] && Fingerprint(other) == Fingerprint(c)
    ensures other == c
  {
    FieldsHaveNoNul(c);
    NulsOfJoined(Fields(c));
    NulsOfJoined(Fields(other));
    HeaderCount(c);
    HeaderCount(other);
    assert |Fields(c)| == 8 && |Fields(other)| == 8;
    AllFieldsClean(other);
    FingerprintIsInjective(other, c);
  }

  lemma HeaderCount(c: Config)
    ensures |Fields(c)| == 8 + |SortedKeys(c.headers)|
    ensures SortedKeys(c.headers) == [] <==> c.headers == map[]
  {
    var keys := SortedKeys(c.headers);
    assert keys != [] ==> keys[0] in c.headers;
    if c.headers != map[] {
      var k :| k in c.headers;
      assert k in keys;
    }
  }

  lemma AllFieldsClean(c: Config)
    requires c.headers == map[] && |Fields(c)| == 8
    requires forall i :: 0 <= i < |Fields(c)| ==> HasNoNul(Fields(c)[i])
    ensures IsClean(c)
  {
    var fields := Fields(c);
    assert fields[0] == c.endpointUrl && fields[1] == c.region && fields[2] == c.accessKeyId;
    assert fields[3] == c.secretAccessKey && fields[4] == c.sessionToken && fields[7] == c.proxyUrl;
  }

  /** How far cleanliness is needed: a clean profile has its fingerprint to itself, among all profiles, exactly
      when it has no headers. With headers, a profile that spells them in its proxy URL shares it. */
  lemma CleanIsAloneIffNoHeaders(c: Config)
    requires IsClean(c)
    ensures (forall other :: Fingerprint(other) == Fingerprint(c) ==> other == c) <==> c.headers == map[]
  {
    HeadersMoveToProxy(c);
    if c.headers == map[] {
      forall other | Fingerprint(other) == Fingerprint(c) ensures other == c {
        CleanWithoutHeaders(c, other);
      }
    } else {
      assert WithoutHeaders(c) != c;
    }
  }

  // ----- the cache -----

  /** A pooled and a fresh client; they know nothing but the fields they were built from. */
  datatype Clients = Clients(builtFrom: Config)

  /** `hash` stands for the SHA-256 of this text. */
  datatype Entry = Entry(hash: string, clients: Clients)

  type Entries = map<int, Entry>

  datatype Event =
    | Get(id: int, config: Config, buildFails: bool)   // the critical section; `config` was read before it
    | Invalidate(id: int)

  ghost predicate Hits(entries: Entries, id: int, config: Config) {
    id in entries && entries[id].hash == Fingerprint(config)
  }

  /** A stale entry is dropped before its replacement is built. */
  ghost function AfterGet(entries: Entries, id: int, config: Config, buildFails: bool): Entries {
    if Hits(entries, id, config) then entries
    else if buildFails then entries - {id}
    else entries[id := Entry(Fingerprint(config), Clients(config))]
  }

  ghost function Answer(entries: Entries, id: int, config: Config, buildFails: bool): Option<Clients> {
    if Hits(entries, id, config) then Some(entries[id].clients)
    else if buildFails then None
    else Some(Clients(config))
  }

  ghost function Step(entries: Entries, e: Event): Entries {
    match e
    case Get(id, config, buildFails) => AfterGet(entries, id, config, buildFails)
    case Invalidate(id) => entries - {id}
  }

  ghost function Run(entries: Entries, events: seq<Event>): Entries {
    if events == [] then entries else Step(Run(entries, events[..|events| - 1]), events[|events| - 1])
  }

  ghost predicate Consistent(entries: Entries) {
    forall id :: id in entries ==>
      IsClean(entries[id].clients.builtFrom) && entries[id].hash == Fingerprint(entries[id].clients.builtFrom)
  }

  ghost predicate AreClean(events: seq<Event>) {
    forall i :: 0 <= i < |events| && events[i].Get? ==> IsClean(events[i].config)
  }

  lemma {:induction false} RunIsConsistent(events: seq<Event>)
    requires AreClean(events)
    ensures Consistent(Run(map[], events))
  {
    if events != [] {
      RunIsConsistent(events[..|events| - 1]);
    }
  }

  /** In any interleaving of lookups, invalidations and profile edits, a lookup returns clients built from
      exactly the profile it read, or fails as building them anew does. */
  lemma GetIsTransparent(events: seq<Event>, id: int, config: Config, buildFails: bool)
    requires AreClean(events) && IsClean(config)
    ensures var answer := Answer(Run(map[], events), id, config, buildFails);
      && (answer.Some? ==> answer.value == Clients(config))
      && (answer.None? ==> buildFails)
  {
    RunIsConsistent(events);
    var entries := Run(map[], events);
    if Hits(entries, id, config) {
      FingerprintIsInjective(entries[id].clients.builtFrom, config);
    }
  }

  predicate Concerns(e: Event, id: int) {
    e.id == id
  }

  lemma {:induction false} OthersKeepEntry(entries: Entries, events: seq<Event>, id: int)
    requires forall i :: 0 <= i < |events| ==> !Concerns(events[i], id)
    ensures id in Run(entries, events) <==> id in entries
    ensures id in entries ==> Run(entries, events)[id] == entries[id]
  {
    if events != [] {
      assert !Concerns(events[|events| - 1], id);
      OthersKeepEntry(entries, events[..|events| - 1], id);
    }
  }

  /** Clients are reused: after an answered lookup, a further lookup of the same profile needs no building,
      whatever happens to other profiles in between; after an invalidation it does. */
  lemma ReusedUntilInvalidated(
    entries: Entries, id: int, config: Config, buildFails: bool, between: seq<Event>)
    requires forall i :: 0 <= i < |between| ==> !Concerns(between[i], id)
    ensures var first := Answer(entries, id, config, buildFails);
      first.Some? ==>
        Answer(Run(AfterGet(entries, id, config, buildFails), between), id, config, true) == first
    ensures Answer(Run(Step(entries, Invalidate(id)), between), id, config, true) == None
  {
    OthersKeepEntry(AfterGet(entries, id, config, buildFails), between, id);
    OthersKeepEntry(Step(entries, Invalidate(id)), between, id);
  }

  /** A profile edit whose fields trade a NUL goes unnoticed. */
  lemma UncleanEditIsMissed()
    ensures Answer(Run(map[], [Get(1, SHIFTED_A, false)]), 1, SHIFTED_B, false) == Some(Clients(SHIFTED_A))
    ensures Clients(SHIFTED_A) != Clients(SHIFTED_B)
  {
    NulBreaksFingerprint();
    var events := [Get(1, SHIFTED_A, false)];
    assert events[..0] == [];
    assert Run(map[], events) == AfterGet(map[], 1, SHIFTED_A, false);
  }

  // ----- the manager itself -----

  /** writeSortedHeaders: the keys in any order, sorted, then written. */
  method WriteSortedHeaders(headers: map<string, string>) returns (text: string)
    ensures text == Joined(HeaderFields(SortedKeys(headers), headers))
  {
    var keys: seq<string> := [];
    var rest := headers;
    while rest != map[]
      invariant forall k :: k in rest ==> k in headers && rest[k] == headers[k]
      invariant IsSorted(keys) && forall k :: k in keys <==> k in headers && k !in rest
      decreases |rest|
    {
      var key :| key in rest;
      InsertedIsSorted(keys, key);
      keys := Inserted(keys, key);
      rest := rest - {key};
    }
    SortedKeysAreUnique(keys, SortedKeys(headers));
    var fields := HeaderFields(keys, headers);
    text := "";
    for i := 0 to |keys|
      invariant text == Joined(fields[..i])
    {
      text := text + (keys[i] + SOH + headers[keys[i]] + NUL);
      assert fields[..i + 1] == fields[..i] + [fields[i]];
      JoinedAdds(fields[..i], [fields[i]]);
    }
    assert fields[..|keys|] == fields;
  }

  /** profileHash, up to the hash itself. */
  method ProfileHash(c: Config) returns (text: string)
    ensures text == Fingerprint(c)
  {
    var headers := WriteSortedHeaders(c.headers);
    text := c.endpointUrl + NUL + c.region + NUL + c.accessKeyId + NUL;
    text := text + (c.secretAccessKey + NUL + c.sessionToken + NUL + BoolText(c.pathStyle) + NUL);
    text := text + (BoolText(c.verifySsl) + NUL);
    JoinedFixed(c);
    text := text + headers + (c.proxyUrl + NUL);
    ghost var headerFields := HeaderFields(SortedKeys(c.headers), c.headers);
    JoinedAdds(FixedFields(c), headerFields);
    JoinedAdds(FixedFields(c) + headerFields, [c.proxyUrl]);
  }

  lemma {:induction false} JoinedAdds(a: seq<string>, b: seq<string>)
    ensures Joined(a + b) == Joined(a) + Joined(b)
  {
    if a == [] {
      assert a + b == b;
    } else {
      assert (a + b)[1..] == a[1..] + b;
      JoinedAdds(a[1..], b);
    }
  }

  lemma JoinedFixed(c: Config)
    ensures Joined(FixedFields(c))
         == c.endpointUrl + NUL + c.region + NUL + c.accessKeyId + NUL
            + (c.secretAccessKey + NUL + c.sessionToken + NUL + BoolText(c.pathStyle) + NUL)
            + (BoolText(c.verifySsl) + NUL)
  {
    var first := [c.endpointUrl, c.region, c.accessKeyId];
    var second := [c.secretAccessKey, c.sessionToken, BoolText(c.pathStyle)];
    JoinedThree(c.endpointUrl, c.region, c.accessKeyId);
    JoinedThree(c.secretAccessKey, c.sessionToken, BoolText(c.pathStyle));
    JoinedAdds(first, second);
    JoinedAdds(first + second, [BoolText(c.verifySsl)]);
    assert FixedFields(c) == first + second + [BoolText(c.verifySsl)];
  }

  lemma JoinedThree(a: string, b: string, c: string)
    ensures Joined([a, b, c]) == a + NUL + b + NUL + c + NUL
  {
    JoinedAdds([a], [b, c]);
    JoinedAdds([b], [c]);
  }

  class Manager {
    var entries: Entries

    constructor ()
      ensures entries == map[]
    {
      entries := map[];
    }

    /** The critical section of Get, over the profile read before it. */
    method Get(id: int, config: Config, buildFails: bool) returns (clients: Option<Clients>)
      modifies this
      ensures entries == Step(old(entries), Event.Get(id, config, buildFails))
      ensures clients == Answer(old(entries), id, config, buildFails)
    {
      var hash := ProfileHash(config);
      if id in entries {
        if entries[id].hash == hash {
          return Some(entries[id].clients);
        }
        entries := entries - {id};
      }
      if buildFails {
        return None;
      }
      entries := entries[id := Entry(hash, Clients(config))];
      clients := Some(Clients(config));
    }

    method Invalidate(id: int)
      modifies this
      ensures entries == Step(old(entries), Event.Invalidate(id))
    {
      if id in entries {
        entries := entries - {id};
      }
    }
  }
}
