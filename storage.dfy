/**
 * The token store handed to the identity-provider library: a string table
 * that, in the browser, also mirrors the provider's token keys into a cookie
 * so that a server-rendered request sees the same session.
 */
module Storage {
  import opened Wrappers
  import opened Segments

  /** The key kinds (the last `.`-separated segment of a key) that `setItem`
      mirrors into the cookie jar. */
  const MirroredTokenTypes: seq<string> := ["LastAuthUser", "accessToken", "refreshToken", "idToken"]

  /** Whether `setItem` on the client copies `key` into the cookie jar. No
      listed type is empty, so a key that is empty or ends in `.` never is. */
  predicate ShouldMirror(key: string)
    ensures ShouldMirror(key) ==> key != [] && key[|key| - 1] != '.'
  {
    LastSegment(key, '.') in MirroredTokenTypes
  }

  /** The allow-list test as a suffix test: a key is mirrored exactly when it
      is one of the listed types or ends with `.` and one of them. */
  lemma ShouldMirrorIsSuffixTest(key: string)
    ensures ShouldMirror(key) <==>
      exists i :: 0 <= i < |MirroredTokenTypes| && EndsWithSegment(key, MirroredTokenTypes[i], '.')
  {
    var types := MirroredTokenTypes;
    assert '.' !in types[0] && '.' !in types[1] && '.' !in types[2] && '.' !in types[3];
    var tokenType := LastSegment(key, '.');
    if tokenType in types {
      var i :| 0 <= i < |types| && types[i] == tokenType;
      LastSegmentIsTheSegmentEnding(key, types[i], '.');
    } else {
      forall i | 0 <= i < |types|
        ensures !EndsWithSegment(key, types[i], '.')
      {
        LastSegmentIsTheSegmentEnding(key, types[i], '.');
      }
    }
  }

  /** `getItem`: a missing key and an empty value both read as `null`. */
  function Lookup(store: map<string, string>, key: string): (r: Option<string>)
    ensures r.Some? <==> key in store && store[key] != ""
    ensures r.Some? ==> r.value == store[key]
  {
    if key in store && store[key] != "" then Some(store[key]) else None
  }

  /** The table right after construction: the backing table with every
      cookie entry assigned over it (`Object.assign`). */
  function Hydrated(backing: map<string, string>, jar: map<string, string>): (store: map<string, string>)
    ensures store.Keys == backing.Keys + jar.Keys
    ensures forall k :: k in jar ==> store[k] == jar[k]
    ensures forall k :: k in backing && k !in jar ==> store[k] == backing[k]
  {
    backing + jar
  }

  /** A key `<prefix>.<tokenType>` is mirrored exactly when its token type is
      one of the four listed, whatever the prefix holds. */
  lemma ShouldMirrorByTokenType(prefix: string, tokenType: string)
    requires '.' !in tokenType
    ensures ShouldMirror(prefix + "." + tokenType) <==> tokenType in MirroredTokenTypes
  {
    LastSegmentAfterSeparator(prefix, tokenType, '.');
  }

  /** A key with no `.` is tested whole. */
  lemma ShouldMirrorUndottedKey(key: string)
    requires '.' !in key
    ensures ShouldMirror(key) <==> key in MirroredTokenTypes
  {
    WithoutSeparator(key, '.');
  }

  /** Keys as the identity-provider library writes them: the id token of a
      user is mirrored, its `userData` entry is not. */
  lemma ShouldMirrorProviderKeys()
    ensures ShouldMirror("CognitoIdentityServiceProvider.xyz.idToken")
    ensures !ShouldMirror("CognitoIdentityServiceProvider.xyz.userData")
  {
    var prefix := "CognitoIdentityServiceProvider.xyz";
    assert MirroredTokenTypes[3] == "idToken";
    assert "CognitoIdentityServiceProvider.xyz.idToken" == prefix + "." + "idToken";
    ShouldMirrorByTokenType(prefix, "idToken");
    assert "CognitoIdentityServiceProvider.xyz.userData" == prefix + "." + "userData";
    ShouldMirrorByTokenType(prefix, "userData");
  }

  /** A write reads back as itself, unless it is empty, and leaves every
      other key reading as before. */
  lemma LookupAfterWrite(store: map<string, string>, key: string, value: string)
    ensures Lookup(store[key := value], key) == if value == "" then None else Some(value)
    ensures forall other :: other != key ==> Lookup(store[key := value], other) == Lookup(store, other)
  {
  }

  /** A removed key reads as `null`; every other key reads as before. */
  lemma LookupAfterRemove(store: map<string, string>, key: string)
    ensures Lookup(store - {key}, key) == None
    ensures forall other :: other != key ==> Lookup(store - {key}, other) == Lookup(store, other)
  {
  }

  class UniversalStorage {
    /** The backing table: `window.localStorage` on the client, a fresh
        per-request table on the server. */
    var store: map<string, string>
    /** The cookie jar of the current environment. */
    var cookies: map<string, string>
    /** `process.client`: true in the browser, false while rendering on the server. */
    const isClient: bool

    /** Every cookie key is also in the table; in the browser, a mirrored
        key holds the same value in both. */
    ghost predicate Valid()
      reads this
    {
      && cookies.Keys <= store.Keys
      && (isClient ==> forall k :: k in cookies && ShouldMirror(k) ==> store[k] == cookies[k])
    }

    /** `localStorage` is the browser's durable table; the server ignores it
        and starts from an empty one. */
    constructor (isClient: bool, localStorage: map<string, string>, cookieJar: map<string, string>)
      ensures this.isClient == isClient
      ensures store == Hydrated(if isClient then localStorage else map[], cookieJar)
      ensures cookies == cookieJar
      ensures Valid()
    {
      this.isClient := isClient;
      cookies := cookieJar;
      var backing := if isClient then localStorage else map[];
      store := backing + cookieJar;
    }

    method GetItem(key: string) returns (r: Option<string>)
      ensures r == Lookup(store, key)
    {
      if key in store && store[key] != "" {
        r := Some(store[key]);
      } else {
        r := None;
      }
    }

    method SetItem(key: string, value: string)
      requires Valid()
      modifies this
      ensures Valid()
      ensures store == old(store)[key := value]
      ensures cookies == if isClient && ShouldMirror(key) then old(cookies)[key := value] else old(cookies)
    {
      store := store[key := value];
      if isClient {
        var tokenType := LastSegment(key, '.');
        var shouldSaveOnCookie := tokenType in MirroredTokenTypes;
        assert shouldSaveOnCookie == ShouldMirror(key);
        if shouldSaveOnCookie {
          cookies := cookies[key := value];
        }
      }
      forall k | isClient && k in cookies && ShouldMirror(k)
        ensures store[k] == cookies[k]
      {
        if k != key {
          assert store[k] == old(store)[k] && cookies[k] == old(cookies)[k];
        }
      }
    }

    /** Removal is not gated by the allow-list: the key leaves both tables. */
    method RemoveItem(key: string)
      requires Valid()
      modifies this
      ensures Valid()
      ensures store == old(store) - {key}
      ensures cookies == old(cookies) - {key}
    {
      store := store - {key};
      cookies := cookies - {key};
    }

    /** Removes every key the table held on entry, one `RemoveItem` at a
        time; since every cookie key is a table key, the jar ends empty too. */
    method Clear()
      requires Valid()
      modifies this
      ensures Valid()
      ensures store == map[]
      ensures cookies == old(cookies) - old(store).Keys
      ensures cookies == map[]
    {
      var pending := store.Keys;
      while pending != {}
        invariant Valid()
        invariant pending <= old(store).Keys
        invariant store == old(store) - (old(store).Keys - pending)
        invariant cookies == old(cookies) - (old(store).Keys - pending)
        decreases pending
      {
        var key :| key in pending;
        RemoveItem(key);
        pending := pending - {key};
      }
      assert store.Keys == {};
      assert cookies.Keys == {};
    }
  }

  /** A browser store: a token written under a provider key reads back and
      is mirrored into the cookie jar. */
  method ClientWriteScenario() {
    var s := new UniversalStorage(true, map[], map[]);
    var key := "CognitoIdentityServiceProvider.xyz.idToken";
    ShouldMirrorByTokenType("CognitoIdentityServiceProvider.xyz", "idToken");
    s.SetItem(key, "abc");
    var r := s.GetItem(key);
    assert r == Some("abc");
    assert s.cookies[key] == "abc";
    s.Clear();
    r := s.GetItem(key);
    assert r == None;
  }

  /** Two server-side stores built from no cookie never see each other's writes. */
  method ServerIsolationScenario() {
    var a := new UniversalStorage(false, map[], map[]);
    var b := new UniversalStorage(false, map[], map[]);
    a.SetItem("CognitoIdentityServiceProvider.xyz.idToken", "abc");
    var r := b.GetItem("CognitoIdentityServiceProvider.xyz.idToken");
    assert r == None;
    assert a.cookies == map[];
  }
}
