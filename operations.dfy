/**
 * The store helpers both registries call: an upsert, an idempotent delete,
 * a raw get, and the gets that decode a row and check its primary id.
 */
module Operations {
  import opened Results
  import opened Records
  import opened Dynamo

  /** insert: encodes the row and puts it, replacing any row with the same id. */
  method Insert(item: Item, tableName: string, db: Db, env: Env) returns (o: Outcome)
    requires db.Valid()
    modifies db
    ensures db.Valid()
    ensures o.Pass? <==> env.marshals(item) && env.answers(ItemKey(tableName, item.Key()))
    ensures o.Fail? ==> o.error == if env.marshals(item) then Unavailable else Serialization
    ensures db.tables == if o.Pass? then old(db.tables)[ItemKey(tableName, item.Key()) := item]
                         else old(db.tables)
  {
    if !env.marshals(item) {
      return Fail(Serialization);
    }
    o := db.PutItem(tableName, item, env);
  }

  /** remove: deletes the row with the given id; a missing row is not an error. */
  method Remove(id: string, tableName: string, db: Db, env: Env) returns (o: Outcome)
    requires db.Valid()
    modifies db
    ensures db.Valid()
    ensures o.Pass? <==> env.marshalsKey(id) && env.answers(ItemKey(tableName, id))
    ensures o.Fail? ==> o.error == if env.marshalsKey(id) then Unavailable else Serialization
    ensures db.tables == if o.Pass? then old(db.tables) - {ItemKey(tableName, id)} else old(db.tables)
    ensures ItemKey(tableName, id) !in old(db.tables) ==> db.tables == old(db.tables)
  {
    if !env.marshalsKey(id) {
      return Fail(Serialization);
    }
    o := db.DeleteItem(tableName, id, env);
  }

  /** getRaw: the row stored under the id, or no row; a failed request is an error. */
  function GetRaw(id: string, tableName: string, db: Db, env: Env): (r: Result<Option<Item>>)
    reads db
    ensures r.Err? <==> !env.answers(ItemKey(tableName, id))
    ensures r.Err? ==> r.error == Unavailable
    ensures r.Ok? ==> (r.value.Some? <==> ItemKey(tableName, id) in db.tables)
    ensures r.Ok? && r.value.Some? ==> r.value.value == db.tables[ItemKey(tableName, id)]
  {
    var slot := ItemKey(tableName, id);
    if !env.answers(slot) then Err(Unavailable)
    else if slot in db.tables then Ok(Some(db.tables[slot]))
    else Ok(None)
  }

  /**
   * getToStruct, as getBasicID uses it: the row under the id decoded as a
   * tokenData. A store error comes back unchanged; an absent row is NotFound.
   */
  function GetToStruct(id: string, tableName: string, db: Db, env: Env): (r: Result<TokenData>)
    reads db
    ensures var slot := ItemKey(tableName, id);
      && (!env.answers(slot) ==> r == Err(Unavailable))
      && (env.answers(slot) ==> (r.Ok? <==> slot in db.tables))
      && (env.answers(slot) && slot !in db.tables ==> r == Err(NotFound))
      && (r.Ok? ==> slot in db.tables && r.value == AsToken(db.tables[slot]))
  {
    match GetRaw(id, tableName, db, env)
    case Err(e) => Err(e)
    case Ok(None) => Err(NotFound)
    case Ok(Some(row)) => Ok(AsToken(row))
  }

  /** The row under the slot is a basic row with a non-empty id and a JSON payload. */
  predicate HoldsInfo(t: Tables, slot: ItemKey)
  {
    slot in t && t[slot].Basic? && t[slot].basic.id != "" && t[slot].basic.data.Json?
  }

  /**
   * getToken: the token info held in the basic row under the id. An absent
   * row, or one whose decoded id is empty, is NotFound; a row without a JSON
   * payload does not decode.
   */
  function GetToken(id: string, tableName: string, db: Db, env: Env): (r: Result<TokenInfo>)
    reads db
    ensures var slot := ItemKey(tableName, id);
      && (!env.answers(slot) ==> r == Err(Unavailable))
      && (r == Err(NotFound) <==>
            env.answers(slot) && (slot !in db.tables || AsBasic(Some(db.tables[slot])).id == ""))
      && (r.Ok? ==> slot in db.tables && db.tables[slot].Basic? && db.tables[slot].basic.id != ""
                    && db.tables[slot].basic.data == Json(r.value))
      && (env.answers(slot) && HoldsInfo(db.tables, slot) ==> r == Ok(db.tables[slot].basic.data.info))
      && ((env.answers(slot) && slot in db.tables && AsBasic(Some(db.tables[slot])).id != ""
          && AsBasic(Some(db.tables[slot])).data.NoData?) ==> r == Err(Serialization))
      && (db.Valid() && r.Ok? ==> db.tables[slot].basic.id == id)
  {
    match GetRaw(id, tableName, db, env)
    case Err(e) => Err(e)
    case Ok(row) =>
      var bd := AsBasic(row);
      if bd.id == "" then Err(NotFound)
      else
        match bd.data
        case Json(info) => Ok(info)
        case NoData => Err(Serialization)
  }

  /**
   * getClient: the id, secret and user id of the client row under the id;
   * every other stored field is dropped. An absent row, or one whose decoded
   * client id is empty, is NotFound.
   */
  function GetClient(id: string, tableName: string, db: Db, env: Env): (r: Result<ClientInfo>)
    reads db
    ensures var slot := ItemKey(tableName, id);
      && (!env.answers(slot) ==> r == Err(Unavailable))
      && (r.Err? ==> r.error == (if env.answers(slot) then NotFound else Unavailable))
      && (r.Ok? <==> env.answers(slot) && slot in db.tables && db.tables[slot].Client?
                     && db.tables[slot].client.clientId != "")
      && (r.Ok? ==> var c := db.tables[slot].client;
                    r.value == ClientInfo(c.clientId, c.clientSecret, c.userId))
      && (db.Valid() && r.Ok? ==> r.value.id == id)
  {
    match GetRaw(id, tableName, db, env)
    case Err(e) => Err(e)
    case Ok(row) =>
      var item := AsClient(row);
      if item.clientId == "" then Err(NotFound)
      else Ok(ClientInfo(item.clientId, item.clientSecret, item.userId))
  }
}
