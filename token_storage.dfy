/**
 * Session-token storage (backend/token_storage.go): the key layout of the
 * durable variant, the choice of variant from the configuration, and the
 * in-memory variant, a map the methods reassign.
 */
module TokenStorage {
  import opened Wrappers
  import Config

  const KeyInfix := ":token:"

  /** `createKey`: the namespaced key of a session's token. */
  function CreateKey(namespace: string, sessionPtr: string): string {
    namespace + KeyInfix + sessionPtr
  }

  /** The session a namespaced key belongs to, if the key lies in `namespace`. */
  function SessionOfKey(namespace: string, key: string): (r: Option<string>)
    ensures r.Some? ==> CreateKey(namespace, r.value) == key
  {
    var prefix := namespace + KeyInfix;
    if |prefix| <= |key| && key[..|prefix|] == prefix then
      assert key == prefix + key[|prefix|..];
      Some(key[|prefix|..])
    else None
  }

  /** A key names back the session it was built for. */
  lemma KeyRoundTrip(namespace: string, sessionPtr: string)
    ensures SessionOfKey(namespace, CreateKey(namespace, sessionPtr)) == Some(sessionPtr)
  {
    var prefix := namespace + KeyInfix;
    assert CreateKey(namespace, sessionPtr) == prefix + sessionPtr;
    assert (prefix + sessionPtr)[..|prefix|] == prefix;
    assert (prefix + sessionPtr)[|prefix|..] == sessionPtr;
  }

  /**
   * Namespaces keep sessions apart: for namespaces without ':' two keys are
   * equal only when both the namespace and the session agree.
   */
  lemma {:induction false} CreateKeyInjective(n1: string, s1: string, n2: string, s2: string)
    requires ':' !in n1 && ':' !in n2
    ensures CreateKey(n1, s1) == CreateKey(n2, s2) <==> n1 == n2 && s1 == s2
  {
    var k1, k2 := CreateKey(n1, s1), CreateKey(n2, s2);
    if k1 == k2 {
      assert k1[|n1|] == ':' && k2[|n2|] == ':';
      assert n1 == k1[..|n1|] && n2 == k2[..|n2|];
      KeyRoundTrip(n1, s1);
      KeyRoundTrip(n2, s2);
    }
  }

  /** What `NewTokenStorage` builds for a storage configuration. */
  datatype StorageChoice =
    | UseRedis(host: string, port: int, password: string, namespace: string)
    | UseInMemory
    | Fatal(message: string)

  /** `NewTokenStorage`: "redis" or "inmemory"; any other type string is fatal. */
  function NewTokenStorage(cfg: Config.StorageConfig): (r: StorageChoice)
    ensures r.UseRedis? <==> cfg.storageType == "redis"
    ensures r.UseInMemory? <==> cfg.storageType == "inmemory"
    ensures r.UseRedis? ==> r == UseRedis(cfg.redis.host, cfg.redis.port, cfg.redis.password, cfg.redis.namespace)
    ensures r.Fatal? ==> r.message == "unknown storage type: " + cfg.storageType
  {
    match cfg.storageType
    case "redis" => UseRedis(cfg.redis.host, cfg.redis.port, cfg.redis.password, cfg.redis.namespace)
    case "inmemory" => UseInMemory
    case _ => Fatal("unknown storage type: " + cfg.storageType)
  }

  /** `InMemoryTokenStorage`: session id to verifier session token. */
  class InMemoryTokenStorage {
    var tokenMap: map<string, string>

    /** `NewInMemoryTokenStorage`. */
    constructor ()
      ensures tokenMap == map[]
    {
      tokenMap := map[];
    }

    /** `StoreToken`: sets the entry, overwriting any existing one; never fails. */
    method StoreToken(sessionPtr: string, token: string) returns (err: Option<string>)
      modifies this
      ensures err == None
      ensures tokenMap == old(tokenMap)[sessionPtr := token]
    {
      tokenMap := tokenMap[sessionPtr := token];
      err := None;
    }

    /** `RetrieveToken`: the stored token, or an error when absent; nothing changes. */
    method RetrieveToken(sessionPtr: string) returns (r: Result<string, string>)
      ensures r.Success? <==> sessionPtr in tokenMap
      ensures r.Success? ==> r.value == tokenMap[sessionPtr]
      ensures r.Failure? ==> r.error == "failed to find token for " + sessionPtr
    {
      if sessionPtr in tokenMap {
        r := Success(tokenMap[sessionPtr]);
      } else {
        r := Failure("failed to find token for " + sessionPtr);
      }
    }

    /** `RemoveToken`: deletes a present entry; an absent one is an error and nothing changes. */
    method RemoveToken(sessionPtr: string) returns (err: Option<string>)
      modifies this
      ensures err.None? <==> sessionPtr in old(tokenMap)
      ensures tokenMap == old(tokenMap) - {sessionPtr}
      ensures err.Some? ==> tokenMap == old(tokenMap)
      ensures err.Some? ==> err.value == "failed to remove token for " + sessionPtr + ", because it wasn't there"
    {
      if sessionPtr in tokenMap {
        tokenMap := tokenMap - {sessionPtr};
        err := None;
      } else {
        err := Some("failed to remove token for " + sessionPtr + ", because it wasn't there");
      }
    }
  }

  /** Store then Retrieve returns the stored token. */
  method StoreThenRetrieve(storage: InMemoryTokenStorage, sessionPtr: string, token: string)
    returns (r: Result<string, string>)
    modifies storage
    ensures r == Success(token)
  {
    var _ := storage.StoreToken(sessionPtr, token);
    r := storage.RetrieveToken(sessionPtr);
  }

  /** Store, Remove, then Retrieve fails, and a second Remove fails too. */
  method StoreRemoveThenRetrieve(storage: InMemoryTokenStorage, sessionPtr: string, token: string)
    returns (removed: Option<string>, r: Result<string, string>, removedAgain: Option<string>)
    modifies storage
    ensures removed == None
    ensures r.Failure?
    ensures removedAgain.Some?
    ensures storage.tokenMap == old(storage.tokenMap) - {sessionPtr}
  {
    var _ := storage.StoreToken(sessionPtr, token);
    removed := storage.RemoveToken(sessionPtr);
    r := storage.RetrieveToken(sessionPtr);
    removedAgain := storage.RemoveToken(sessionPtr);
  }
}
