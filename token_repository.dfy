/** `src/repository/token_repository.rs`: the token registry, a Redis database seen as a map
    from key to stored token. A backend may refuse some commands (a lost connection, a full
    server): the set `refused` names them, so that every failure the services must handle is
    an explicit, fixed part of the state. */
module TokenRepository {
  import opened Errors

  const BackendMessage: string := "Something went wrong."

  /** A stored token and the expiry, in seconds, it was written with (`SET key token EX ttl`). */
  datatype Entry = Entry(token: string, ttl: nat)

  /** The commands the repository issues, one per operation. */
  datatype Command = Get(key: string) | SetEx(key: string) | Del(key: string)

  /** The registry's contents and the commands its backend refuses. */
  datatype Registry = Registry(entries: map<string, Entry>, refused: set<Command>)

  /** `get_token`: the stored token. A missing key is an error too, because Redis answers
      nil and nil does not convert to a string. */
  function GetTokenSpec(reg: Registry, key: string): (r: Result<string>)
    ensures r.Ok? <==> Get(key) !in reg.refused && key in reg.entries
    ensures r.Ok? ==> r.value == reg.entries[key].token
    ensures r.Err? ==> r.error == InternalServerError(BackendMessage)
  {
    if Get(key) in reg.refused || key !in reg.entries then Err(InternalServerError(BackendMessage))
    else Ok(reg.entries[key].token)
  }

  /** `save_token`: `SET key token EX ttl`, which overwrites any previous value. */
  function SaveTokenSpec(reg: Registry, key: string, token: string, ttl: nat): (Result<bool>, Registry)
  {
    if SetEx(key) in reg.refused then (Err(InternalServerError(BackendMessage)), reg)
    else (Ok(true), reg.(entries := reg.entries[key := Entry(token, ttl)]))
  }

  /** `delete_token`: `DEL key`, answering whether the key was there. */
  function DeleteTokenSpec(reg: Registry, key: string): (Result<bool>, Registry)
  {
    if Del(key) in reg.refused then (Err(InternalServerError(BackendMessage)), reg)
    else (Ok(key in reg.entries), reg.(entries := reg.entries - {key}))
  }

  /** A write is seen by the next read of the same key. */
  lemma SaveThenGet(reg: Registry, key: string, token: string, ttl: nat)
    requires SaveTokenSpec(reg, key, token, ttl).0.Ok? && Get(key) !in reg.refused
    ensures GetTokenSpec(SaveTokenSpec(reg, key, token, ttl).1, key) == Ok(token)
  {
  }

  class TokenRepositoryImpl {
    var entries: map<string, Entry>
    const refused: set<Command>

    function Model(): Registry
      reads this
    {
      Registry(entries, refused)
    }

    constructor(entries: map<string, Entry>, refused: set<Command>)
      ensures Model() == Registry(entries, refused)
    {
      this.entries := entries;
      this.refused := refused;
    }

    method GetToken(key: string) returns (r: Result<string>)
      ensures r == GetTokenSpec(Model(), key)
    {
      if Get(key) in refused || key !in entries {
        return Err(InternalServerError(BackendMessage));
      }
      r := Ok(entries[key].token);
    }

    method SaveToken(key: string, token: string, ttl: nat) returns (r: Result<bool>)
      modifies this
      ensures (r, Model()) == SaveTokenSpec(old(Model()), key, token, ttl)
    {
      if SetEx(key) in refused {
        return Err(InternalServerError(BackendMessage));
      }
      entries := entries[key := Entry(token, ttl)];
      r := Ok(true);
    }

    method DeleteToken(key: string) returns (r: Result<bool>)
      modifies this
      ensures (r, Model()) == DeleteTokenSpec(old(Model()), key)
    {
      if Del(key) in refused {
        return Err(InternalServerError(BackendMessage));
      }
      r := Ok(key in entries);
      entries := entries - {key};
    }
  }
}
