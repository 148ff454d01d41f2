/**
 * Per-user OAuth credential storage: the in-memory store, the file store's
 * choice of file name for a user, and the factory that picks a store by name.
 *
 * A store is modelled by the map it keeps: user id -> credentials for the
 * in-memory store, file name -> credentials for the credential directory.
 */
module TokenStore {
  import opened Wrappers
  import opened Strings
  import Colors

  /** The JSON credentials dictionary, field name -> value. */
  type Credentials = map<string, string>

  /** `d.get(k)`: the stored value, or None when the key is absent. */
  function Lookup<K>(m: map<K, Credentials>, k: K): (r: Option<Credentials>)
    ensures r.Some? <==> k in m
    ensures r.Some? ==> r.value == m[k]
  {
    if k in m then Some(m[k]) else None
  }

  // ---------------------------------------------------------------------
  // InMemoryTokenStore
  // ---------------------------------------------------------------------

  /** Development store: a dictionary from user id to credentials. */
  class InMemoryTokenStore {
    var entries: map<string, Credentials>

    constructor()
      ensures entries == map[]
    {
      entries := map[];
    }

    /** `self._store[user_id] = credentials`: adds or overwrites one entry. */
    method Store(userId: string, credentials: Credentials)
      modifies this
      ensures entries == old(entries)[userId := credentials]
    {
      entries := entries[userId := credentials];
    }

    /** `self._store.get(user_id)`. */
    method Retrieve(userId: string) returns (r: Option<Credentials>)
      ensures r == Lookup(entries, userId)
    {
      if userId in entries {
        r := Some(entries[userId]);
      } else {
        r := None;
      }
    }

    /** `self._store.pop(user_id, None)`: removing an absent user is not an error. */
    method Delete(userId: string)
      modifies this
      ensures entries == old(entries) - {userId}
    {
      entries := entries - {userId};
    }
  }

  /** After a store, a retrieve of the same key returns what was stored. */
  lemma RetrieveAfterStore<K>(m: map<K, Credentials>, k: K, c: Credentials)
    ensures Lookup(m[k := c], k) == Some(c)
  {
  }

  /** A store or a delete under one key leaves every other key as it was. */
  lemma OtherKeysUnchanged<K>(m: map<K, Credentials>, k: K, other: K, c: Credentials)
    requires other != k
    ensures Lookup(m[k := c], other) == Lookup(m, other)
    ensures Lookup(m - {k}, other) == Lookup(m, other)
  {
  }

  /** After a delete, the key is gone; deleting an absent key changes nothing. */
  lemma RetrieveAfterDelete<K>(m: map<K, Credentials>, k: K)
    ensures Lookup(m - {k}, k) == None
    ensures k !in m ==> m - {k} == m
  {
  }

  // ---------------------------------------------------------------------
  // FileTokenStore._get_path
  // ---------------------------------------------------------------------

  const CREDENTIALS_SUFFIX: string := ".json"

  /** A character allowed in a credentials file name. */
  predicate IsFileNameChar(c: char) {
    IsAlnum(c) || c == '_'
  }

  /** The file store's sanitiser: every non-alphanumeric character becomes `_`. */
  function SafeId(userId: string): (r: string)
    ensures |r| == |userId|
    ensures forall i :: 0 <= i < |r| ==> IsFileNameChar(r[i])
    ensures forall i :: 0 <= i < |r| ==> r[i] == (if IsAlnum(userId[i]) then userId[i] else '_')
  {
    if userId == [] then []
    else [if IsAlnum(userId[0]) then userId[0] else '_'] + SafeId(userId[1..])
  }

  /** The credentials file name for a user, as written: `f"{safe_id}.json"`. */
  function LegacyFileName(userId: string): (r: string)
    ensures |r| == |userId| + |CREDENTIALS_SUFFIX|
    ensures r[..|userId|] == SafeId(userId) && r[|userId|..] == CREDENTIALS_SUFFIX
  {
    SafeId(userId) + CREDENTIALS_SUFFIX
  }

  /**
   * Two different users share one credentials file under the sanitiser: a
   * store for one overwrites the other's file and a retrieve for the other
   * returns the first user's credentials.
   */
  lemma LegacyFileNameCollision(files: map<string, Credentials>, c: Credentials)
    ensures "a@b" != "a_b"
    ensures LegacyFileName("a@b") == LegacyFileName("a_b")
    ensures Lookup(files[LegacyFileName("a@b") := c], LegacyFileName("a_b")) == Some(c)
  {
    assert SafeId("a@b") == "a_b" by {
      assert "a@b"[1..] == "@b" && "@b"[1..] == "b" && "b"[1..] == "";
    }
    assert SafeId("a_b") == "a_b" by {
      assert "a_b"[1..] == "_b" && "_b"[1..] == "b" && "b"[1..] == "";
    }
  }

  /** Number of hex digits that encode one escaped character. */
  const CODE_WIDTH: nat := 6

  function Pow16(n: nat): (r: nat)
    ensures r >= 1
  {
    if n == 0 then 1 else 16 * Pow16(n - 1)
  }

  /** `n` written with exactly `width` lower-case hex digits. */
  function HexFixed(n: nat, width: nat): (r: string)
    requires n < Pow16(width)
    ensures |r| == width
    ensures forall i :: 0 <= i < |r| ==> Colors.IsHexDigit(r[i]) && IsFileNameChar(r[i])
  {
    if width == 0 then []
    else HexFixed(n / 16, width - 1) + [HexDigit(n % 16, false)]
  }

  predicate AllHex(s: string) {
    forall i :: 0 <= i < |s| ==> Colors.IsHexDigit(s[i])
  }

  /** The number a string of hex digits denotes, most significant first. */
  function HexFixedValue(s: string): (n: nat)
    requires AllHex(s)
    ensures n < Pow16(|s|)
  {
    if s == [] then 0
    else HexFixedValue(s[..|s| - 1]) * 16 + Colors.HexValue(s[|s| - 1])
  }

  lemma {:induction false} HexFixedRoundTrip(n: nat, width: nat)
    requires n < Pow16(width)
    ensures AllHex(HexFixed(n, width)) && HexFixedValue(HexFixed(n, width)) == n
  {
    if width > 0 {
      var s := HexFixed(n, width);
      HexFixedRoundTrip(n / 16, width - 1);
      assert s[..|s| - 1] == HexFixed(n / 16, width - 1);
      Colors.DigitValueRoundTrip(n % 16, false);
    }
  }

  /** Whether a number is the code of a Unicode scalar value. */
  predicate IsCharCode(n: nat) {
    n < 0xD800 || (0xE000 <= n < 0x11_0000)
  }

  /** One character of a user id as it appears in the corrected file name. */
  function EscapeChar(c: char): (r: string)
    ensures forall i :: 0 <= i < |r| ==> IsFileNameChar(r[i])
  {
    assert (c as int) < Pow16(CODE_WIDTH);
    if IsAlnum(c) then [c] else ['_'] + HexFixed(c as int, CODE_WIDTH)
  }

  /**
   * Injective file-name encoding: alphanumeric characters are kept, and every
   * other character, `_` included, becomes `_` followed by its code point in
   * six hex digits.
   */
  function EncodeUserId(userId: string): (r: string)
    ensures forall i :: 0 <= i < |r| ==> IsFileNameChar(r[i])
  {
    if userId == [] then []
    else EscapeChar(userId[0]) + EncodeUserId(userId[1..])
  }

  /** Reads an encoded user id back; None when `s` is not an encoding. */
  function DecodeUserId(s: string): (r: Option<string>)
    decreases |s|
  {
    if s == [] then Some([])
    else if IsAlnum(s[0]) then
      match DecodeUserId(s[1..])
      case None => None
      case Some(t) => Some([s[0]] + t)
    else if s[0] == '_' && |s| >= 1 + CODE_WIDTH && AllHex(s[1..1 + CODE_WIDTH]) then
      var code := HexFixedValue(s[1..1 + CODE_WIDTH]);
      if IsCharCode(code) then
        match DecodeUserId(s[1 + CODE_WIDTH..])
        case None => None
        case Some(t) => Some([code as char] + t)
      else None
    else None
  }

  lemma {:induction false} EncodeUserIdRoundTrip(userId: string)
    ensures DecodeUserId(EncodeUserId(userId)) == Some(userId)
  {
    if userId != [] {
      var c, rest := userId[0], userId[1..];
      var s := EncodeUserId(userId);
      EncodeUserIdRoundTrip(rest);
      if IsAlnum(c) {
        assert s[1..] == EncodeUserId(rest);
      } else {
        var code := HexFixed(c as int, CODE_WIDTH);
        HexFixedRoundTrip(c as int, CODE_WIDTH);
        assert s[1..1 + CODE_WIDTH] == code;
        assert s[1 + CODE_WIDTH..] == EncodeUserId(rest);
      }
      assert [c] + rest == userId;
    }
  }

  /** Ids made only of letters and digits keep the file name the sanitiser gave them. */
  lemma {:induction false} EncodeAgreesOnAlnum(userId: string)
    requires forall i :: 0 <= i < |userId| ==> IsAlnum(userId[i])
    ensures EncodeUserId(userId) == SafeId(userId) == userId
  {
    if userId != [] {
      EncodeAgreesOnAlnum(userId[1..]);
      assert [userId[0]] + userId[1..] == userId;
    }
  }

  /** The credentials file name for a user, with the injective encoding. */
  function FileName(userId: string): string {
    EncodeUserId(userId) + CREDENTIALS_SUFFIX
  }

  /** The file name is safe letters, digits and `_`, then `.json`. */
  lemma FileNameShape(userId: string)
    ensures var r := FileName(userId);
      |r| >= |CREDENTIALS_SUFFIX| && r[|r| - |CREDENTIALS_SUFFIX|..] == CREDENTIALS_SUFFIX &&
      forall i :: 0 <= i < |r| - |CREDENTIALS_SUFFIX| ==> IsFileNameChar(r[i])
  {
    var r := FileName(userId);
    assert r[..|r| - |CREDENTIALS_SUFFIX|] == EncodeUserId(userId);
  }

  /** Different users never share a credentials file. */
  lemma FileNameInjective(u: string, v: string)
    requires FileName(u) == FileName(v)
    ensures u == v
  {
    var fu, fv := FileName(u), FileName(v);
    assert EncodeUserId(u) == fu[..|fu| - |CREDENTIALS_SUFFIX|];
    assert EncodeUserId(v) == fv[..|fv| - |CREDENTIALS_SUFFIX|];
    EncodeUserIdRoundTrip(u);
    EncodeUserIdRoundTrip(v);
  }

  // ---------------------------------------------------------------------
  // FileTokenStore
  // ---------------------------------------------------------------------

  /** File store: the credential directory, file name -> stored JSON, named by `_get_path`. */
  class FileTokenStore {
    var files: map<string, Credentials>

    /** Opens a directory that may already hold credential files. */
    constructor(existing: map<string, Credentials>)
      ensures files == existing
    {
      files := existing;
    }

    /** Writes (or overwrites) the user's credentials file. */
    method Store(userId: string, credentials: Credentials)
      modifies this
      ensures files == old(files)[LegacyFileName(userId) := credentials]
    {
      files := files[LegacyFileName(userId) := credentials];
    }

    /** Reads the user's credentials file; None when it does not exist. */
    method Retrieve(userId: string) returns (r: Option<Credentials>)
      ensures r == Lookup(files, LegacyFileName(userId))
    {
      var path := LegacyFileName(userId);
      if path in files {
        r := Some(files[path]);
      } else {
        r := None;
      }
    }

    /** Removes the user's credentials file if it exists. */
    method Delete(userId: string)
      modifies this
      ensures files == old(files) - {LegacyFileName(userId)}
    {
      var path := LegacyFileName(userId);
      if path in files {
        files := files - {path};
      }
    }
  }

  /** No two of the users are given the same file by the sanitiser. */
  predicate Separated(users: set<string>) {
    forall u, v :: u in users && v in users && SafeId(u) == SafeId(v) ==> u == v
  }

  /** Users whose ids are letters and digits only are kept apart by the sanitiser. */
  lemma AlnumSeparated(users: set<string>)
    requires forall u, i :: u in users && 0 <= i < |u| ==> IsAlnum(u[i])
    ensures Separated(users)
  {
    forall u, v | u in users && v in users && SafeId(u) == SafeId(v)
      ensures u == v
    {
      EncodeAgreesOnAlnum(u);
      EncodeAgreesOnAlnum(v);
    }
  }

  /** For each of the users, the directory holds what the dictionary holds for that user. */
  ghost predicate MirrorsOn(files: map<string, Credentials>, entries: map<string, Credentials>, users: set<string>) {
    forall u :: u in users ==> Lookup(files, LegacyFileName(u)) == Lookup(entries, u)
  }

  /** Two of the users share a file only when the sanitiser maps them to the same id. */
  lemma LegacyFileNameSeparates(u: string, v: string)
    requires LegacyFileName(u) == LegacyFileName(v)
    ensures SafeId(u) == SafeId(v)
  {
    var fu, fv := LegacyFileName(u), LegacyFileName(v);
    assert SafeId(u) == fu[..|u|] && SafeId(v) == fv[..|v|];
  }

  /**
   * Among users the sanitiser keeps apart, a store keeps the file store in
   * step with the in-memory store.
   */
  lemma StoreMirrors(files: map<string, Credentials>, entries: map<string, Credentials>, users: set<string>,
                     userId: string, c: Credentials)
    requires Separated(users) && userId in users && MirrorsOn(files, entries, users)
    ensures MirrorsOn(files[LegacyFileName(userId) := c], entries[userId := c], users)
  {
    var path := LegacyFileName(userId);
    forall u | u in users ensures Lookup(files[path := c], LegacyFileName(u)) == Lookup(entries[userId := c], u) {
      if u != userId {
        var other := LegacyFileName(u);
        if other == path {
          LegacyFileNameSeparates(u, userId);
        }
        assert Lookup(files[path := c], other) == Lookup(files, other);
      }
    }
  }

  /**
   * Among users the sanitiser keeps apart, a delete keeps the file store in
   * step with the in-memory store.
   */
  lemma DeleteMirrors(files: map<string, Credentials>, entries: map<string, Credentials>, users: set<string>,
                      userId: string)
    requires Separated(users) && userId in users && MirrorsOn(files, entries, users)
    ensures MirrorsOn(files - {LegacyFileName(userId)}, entries - {userId}, users)
  {
    var path := LegacyFileName(userId);
    forall u | u in users ensures Lookup(files - {path}, LegacyFileName(u)) == Lookup(entries - {userId}, u) {
      if u != userId {
        var other := LegacyFileName(u);
        if other == path {
          LegacyFileNameSeparates(u, userId);
        }
        assert Lookup(files - {path}, other) == Lookup(files, other);
      }
    }
  }

  /**
   * For `a@b` and `a_b` the file store falls out of step: after storing for
   * `a@b` it answers `a_b` with those credentials, which the in-memory store
   * does not hold for `a_b`.
   */
  lemma CollisionBreaksMirror(c: Credentials)
    ensures !Separated({"a@b", "a_b"})
    ensures Lookup(map[][LegacyFileName("a@b") := c], LegacyFileName("a_b")) == Some(c)
    ensures Lookup(map[]["a@b" := c], "a_b") == None
  {
    LegacyFileNameCollision(map[], c);
    assert SafeId("a@b") == SafeId("a_b") by {
      LegacyFileNameSeparates("a@b", "a_b");
    }
  }

  /** The directory holds, for every user, what the dictionary holds for that user. */
  ghost predicate Mirrors(files: map<string, Credentials>, entries: map<string, Credentials>) {
    forall u ::
      Lookup(files, FileName(u)) == Lookup(entries, u)
  }

  /** With the injective file names, a store keeps the two stores in step for every user. */
  lemma CorrectedStoreMirrors(files: map<string, Credentials>, entries: map<string, Credentials>,
                              userId: string, c: Credentials)
    requires Mirrors(files, entries)
    ensures Mirrors(files[FileName(userId) := c], entries[userId := c])
  {
    var path := FileName(userId);
    forall u ensures Lookup(files[path := c], FileName(u)) == Lookup(entries[userId := c], u) {
      if u != userId {
        var other := FileName(u);
        if other == path {
          FileNameInjective(u, userId);
        }
        assert Lookup(files[path := c], other) == Lookup(files, other);
      }
    }
  }

  /** With the injective file names, a delete keeps the two stores in step for every user. */
  lemma CorrectedDeleteMirrors(files: map<string, Credentials>, entries: map<string, Credentials>,
                               userId: string)
    requires Mirrors(files, entries)
    ensures Mirrors(files - {FileName(userId)}, entries - {userId})
  {
    var path := FileName(userId);
    forall u ensures Lookup(files - {path}, FileName(u)) == Lookup(entries - {userId}, u) {
      if u != userId {
        var other := FileName(u);
        if other == path {
          FileNameInjective(u, userId);
        }
        assert Lookup(files - {path}, other) == Lookup(files, other);
      }
    }
  }

  // ---------------------------------------------------------------------
  // get_token_store
  // ---------------------------------------------------------------------

  datatype StoreKind = FileStore | MemoryStore

  datatype StoreError = UnknownStoreType(storeType: string)

  const DEFAULT_STORE_TYPE: string := "file"

  /** The factory: "file" or "memory", anything else is a ValueError. */
  function GetTokenStore(storeType: string): (r: Result<StoreKind, StoreError>)
    ensures r == Ok(FileStore) <==> storeType == "file"
    ensures r == Ok(MemoryStore) <==> storeType == "memory"
    ensures r.Err? <==> storeType != "file" && storeType != "memory"
    ensures r.Err? ==> r.error.storeType == storeType
  {
    if storeType == "file" then Ok(FileStore)
    else if storeType == "memory" then Ok(MemoryStore)
    else Err(UnknownStoreType(storeType))
  }

  lemma DefaultIsFileStore()
    ensures GetTokenStore(DEFAULT_STORE_TYPE) == Ok(FileStore)
  {
  }
}
