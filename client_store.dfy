/**
 * The client registry: an upsert, a lookup and a delete of client rows in
 * one table, keyed by client id.
 */
module Clients {
  import opened Results
  import opened Records
  import opened Dynamo
  import opened Operations

  /** The name of the clients table. */
  datatype ClientConfig = ClientConfig(clientsCName: string)

  /** The configuration used when the caller supplies none. */
  function NewDefaultClientConfig(): (c: ClientConfig)
    ensures c.clientsCName == "oauth2_clients"
  {
    ClientConfig("oauth2_clients")
  }

  class ClientStore {
    const cfg: ClientConfig
    const db: Db

    /** NewClientStoreWithSession: the first supplied configuration, if any, replaces the default. */
    constructor WithSession(db: Db, ccfgs: seq<ClientConfig>)
      ensures this.db == db
      ensures |ccfgs| > 0 ==> cfg == ccfgs[0]
      ensures |ccfgs| == 0 ==> cfg == NewDefaultClientConfig()
    {
      var c := NewDefaultClientConfig();
      if |ccfgs| > 0 {
        c := ccfgs[0];
      }
      this.db := db;
      this.cfg := c;
    }

    /** Set: stores all ten fields under the client id, replacing any earlier row with that id. */
    method Set(clientId: string, clientSecret: string, userId: string, userType: string,
               redirectUri: string, name: string, isConfidential: bool,
               createTime: int, updateTime: int, validUntil: int, env: Env)
      returns (o: Outcome)
      requires db.Valid()
      modifies db
      ensures db.Valid()
      ensures var entity := ClientRow(clientId, clientSecret, isConfidential, redirectUri, name,
                                      userId, userType, validUntil, createTime, updateTime);
        && (o.Pass? <==> env.marshals(Client(entity)) && env.answers(ItemKey(cfg.clientsCName, clientId)))
        && (o.Fail? ==> o.error == if env.marshals(Client(entity)) then Unavailable else Serialization)
        && (db.tables == if o.Pass? then old(db.tables)[ItemKey(cfg.clientsCName, clientId) := Client(entity)]
                         else old(db.tables))
    {
      var entity := ClientRow(clientId, clientSecret, isConfidential, redirectUri, name,
                              userId, userType, validUntil, createTime, updateTime);
      o := Insert(Client(entity), cfg.clientsCName, db, env);
    }

    /** GetByID: the id, secret and user id of the stored client; NotFound when there is none. */
    function GetByID(id: string, env: Env): (r: Result<ClientInfo>)
      reads db
      ensures var slot := ItemKey(cfg.clientsCName, id);
        && (!env.answers(slot) ==> r == Err(Unavailable))
        && (r.Err? ==> r.error == (if env.answers(slot) then NotFound else Unavailable))
        && (r.Ok? <==> env.answers(slot) && slot in db.tables && db.tables[slot].Client?
                       && db.tables[slot].client.clientId != "")
        && (r.Ok? ==> var c := db.tables[slot].client;
                      r.value == ClientInfo(c.clientId, c.clientSecret, c.userId))
        && (db.Valid() && r.Ok? ==> r.value.id == id)
    {
      GetClient(id, cfg.clientsCName, db, env)
    }

    /** RemoveByID: deletes the row under the client id and nothing else. */
    method RemoveByID(id: string, env: Env) returns (o: Outcome)
      requires db.Valid()
      modifies db
      ensures db.Valid()
      ensures o.Pass? <==> env.marshalsKey(id) && env.answers(ItemKey(cfg.clientsCName, id))
      ensures o.Fail? ==> o.error == if env.marshalsKey(id) then Unavailable else Serialization
      ensures db.tables == if o.Pass? then old(db.tables) - {ItemKey(cfg.clientsCName, id)}
                           else old(db.tables)
    {
      o := Remove(id, cfg.clientsCName, db, env);
    }
  }

  /** After a stored Set the client reads back with its id, secret and user id; an empty id reads as NotFound. */
  lemma SetThenGet(cs: ClientStore, t: Tables, entity: ClientRow, env: Env)
    requires cs.db.tables == t[ItemKey(cs.cfg.clientsCName, entity.clientId) := Client(entity)]
    requires env.answers(ItemKey(cs.cfg.clientsCName, entity.clientId))
    ensures entity.clientId != "" ==>
      cs.GetByID(entity.clientId, env) == Ok(ClientInfo(entity.clientId, entity.clientSecret, entity.userId))
    ensures entity.clientId == "" ==> cs.GetByID(entity.clientId, env) == Err(NotFound)
  {
  }

  /** Set, then RemoveByID, then GetByID on the same id reports NotFound. */
  lemma SetRemoveGet(cs: ClientStore, t: Tables, entity: ClientRow, env: Env)
    requires cs.db.tables
             == t[ItemKey(cs.cfg.clientsCName, entity.clientId) := Client(entity)]
                - {ItemKey(cs.cfg.clientsCName, entity.clientId)}
    requires env.answers(ItemKey(cs.cfg.clientsCName, entity.clientId))
    ensures cs.GetByID(entity.clientId, env) == Err(NotFound)
  {
  }
}
