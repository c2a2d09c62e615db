/**
 * The token registry. One grant is kept as up to three rows: a basic row
 * holding the token info as JSON, and access- and refresh-index rows keyed by
 * the token strings that point at the basic row's id. Create writes them,
 * the lookups resolve a code or token to the token info, and each removal
 * deletes one row from one table without cascading.
 */
module Tokens {
  import opened Results
  import opened Records
  import opened Dynamo
  import opened Operations

  /** The names of the tables the registry uses. */
  datatype TokenConfig = TokenConfig(
    txnCName: string,
    basicCName: string,
    accessCName: string,
    refreshCName: string)

  /** The configuration used when the caller supplies none; its three row tables are distinct. */
  function NewDefaultTokenConfig(): (c: TokenConfig)
    ensures c.txnCName == "oauth2_txn"
    ensures c.basicCName == "oauth2_basic"
    ensures c.accessCName == "oauth2_access"
    ensures c.refreshCName == "oauth2_refresh"
    ensures c.basicCName != c.accessCName && c.basicCName != c.refreshCName
    ensures c.accessCName != c.refreshCName
  {
    TokenConfig("oauth2_txn", "oauth2_basic", "oauth2_access", "oauth2_refresh")
  }

  // ---------------------------------------------------------------------
  // Expiry rule
  // ---------------------------------------------------------------------

  /** time.Time.Second(): the second within the minute. */
  function Second(t: int): int
  {
    t % 60
  }

  function CodeDeadline(info: TokenInfo): int
  {
    info.codeCreateAt + info.codeExpiresIn
  }

  function AccessDeadline(info: TokenInfo): int
  {
    info.accessCreateAt + info.accessExpiresIn
  }

  function RefreshDeadline(info: TokenInfo): int
  {
    info.refreshCreateAt + info.refreshExpiresIn
  }

  /** The expiry of the basic row and of the refresh row: the refresh deadline when there is a refresh token. */
  function GrantExpiry(info: TokenInfo): int
  {
    if info.refresh != "" then RefreshDeadline(info) else AccessDeadline(info)
  }

  /**
   * The expiry of the access row: the access deadline, unless there is a
   * refresh token and the access deadline's second-of-minute exceeds the
   * refresh deadline's, in which case the refresh deadline.
   */
  function AccessExpiry(info: TokenInfo): int
  {
    if info.refresh != "" && Second(AccessDeadline(info)) > Second(RefreshDeadline(info))
    then RefreshDeadline(info)
    else AccessDeadline(info)
  }

  function Min(a: int, b: int): int
  {
    if a <= b then a else b
  }

  /** Within one minute the second-of-minute comparison is a time comparison: the access row expires at the earlier deadline. */
  lemma SameMinuteAccessExpiryIsEarlier(info: TokenInfo)
    requires info.refresh != ""
    requires AccessDeadline(info) / 60 == RefreshDeadline(info) / 60
    ensures AccessExpiry(info) == Min(AccessDeadline(info), RefreshDeadline(info))
    ensures AccessExpiry(info) <= GrantExpiry(info)
  {
  }

  /** The access row can expire after the basic row it points at. */
  lemma AccessRowCanOutliveGrant()
    ensures exists info: TokenInfo :: info.refresh != "" && AccessExpiry(info) > GrantExpiry(info)
  {
    var info := TokenInfo("", "", "", "", "", 0, 0, "a", 0, 3600, "r", 0, 59);
    assert AccessExpiry(info) == 3600 && GrantExpiry(info) == 59;
  }

  /** The access row can expire later than the access token itself. */
  lemma AccessRowCanOutliveAccessToken()
    ensures exists info: TokenInfo :: AccessExpiry(info) > AccessDeadline(info)
  {
    var info := TokenInfo("", "", "", "", "", 0, 0, "a", 0, 59, "r", 0, 3600);
    assert AccessExpiry(info) == 3600 && AccessDeadline(info) == 59;
  }

  /** The basic row's expiry is not the later of the two deadlines. */
  lemma GrantExpiryIsNotTheLater()
    ensures exists info: TokenInfo :: info.refresh != "" && GrantExpiry(info) < AccessDeadline(info)
  {
    var info := TokenInfo("", "", "", "", "", 0, 0, "a", 0, 3600, "r", 0, 59);
    assert GrantExpiry(info) == 59 && AccessDeadline(info) == 3600;
  }

  /** An access token of one hour and a refresh token of one day issued together. */
  lemma HourAndDayExpiries(info: TokenInfo)
    requires info.refresh != ""
    requires info.refreshCreateAt == info.accessCreateAt
    requires info.accessExpiresIn == 3600 && info.refreshExpiresIn == 86400
    ensures GrantExpiry(info) == info.accessCreateAt + 86400
    ensures AccessExpiry(info) == info.accessCreateAt + 3600
  {
  }

  // ---------------------------------------------------------------------
  // The rows of one grant
  // ---------------------------------------------------------------------

  /** The single basic row written for a pending authorization code. */
  function CodeRow(info: TokenInfo): Item
  {
    Basic(BasicData(info.code, Json(info), CodeDeadline(info)))
  }

  function BasicRow(info: TokenInfo, id: string): Item
  {
    Basic(BasicData(id, Json(info), GrantExpiry(info)))
  }

  function AccessRow(info: TokenInfo, id: string): Item
  {
    Token(TokenData(info.access, id, AccessExpiry(info)))
  }

  function RefreshRow(info: TokenInfo, id: string): Item
  {
    Token(TokenData(info.refresh, id, GrantExpiry(info)))
  }

  /** The puts of one grant's transaction: basic, access, and refresh when there is a refresh token. */
  function GrantOps(cfg: TokenConfig, info: TokenInfo, id: string): seq<Put>
  {
    [Put(cfg.basicCName, BasicRow(info, id)), Put(cfg.accessCName, AccessRow(info, id))]
    + (if info.refresh != "" then [Put(cfg.refreshCName, RefreshRow(info, id))] else [])
  }

  predicate AllMarshal(ops: seq<Put>, env: Env)
  {
    forall k :: 0 <= k < |ops| ==> env.marshals(ops[k].item)
  }

  /**
   * A committed grant holds exactly its rows: the basic row under the id,
   * the access row under the access token, the refresh row under the refresh
   * token when there is one; every other row is as it was.
   */
  lemma {:induction false} GrantRows(t: Tables, cfg: TokenConfig, info: TokenInfo, id: string)
    requires DistinctTargets(GrantOps(cfg, info, id))
    ensures var g := ApplyPuts(t, GrantOps(cfg, info, id));
      && ItemKey(cfg.basicCName, id) in g && g[ItemKey(cfg.basicCName, id)] == BasicRow(info, id)
      && ItemKey(cfg.accessCName, info.access) in g
      && g[ItemKey(cfg.accessCName, info.access)] == AccessRow(info, id)
      && (info.refresh != "" ==>
            ItemKey(cfg.refreshCName, info.refresh) in g
            && g[ItemKey(cfg.refreshCName, info.refresh)] == RefreshRow(info, id))
      && (forall s :: s != ItemKey(cfg.basicCName, id) && s != ItemKey(cfg.accessCName, info.access)
            && (info.refresh == "" || s != ItemKey(cfg.refreshCName, info.refresh))
            ==> (s in g <==> s in t) && (s in t ==> g[s] == t[s]))
  {
    var ops := GrantOps(cfg, info, id);
    assert ops[0].Target() == ItemKey(cfg.basicCName, id);
    assert ops[1].Target() == ItemKey(cfg.accessCName, info.access);
    ApplyPutsHit(t, ops, 0);
    ApplyPutsHit(t, ops, 1);
    if info.refresh != "" {
      assert ops[2].Target() == ItemKey(cfg.refreshCName, info.refresh);
      ApplyPutsHit(t, ops, 2);
    }
    forall s | s != ItemKey(cfg.basicCName, id) && s != ItemKey(cfg.accessCName, info.access)
               && (info.refresh == "" || s != ItemKey(cfg.refreshCName, info.refresh))
      ensures var g := ApplyPuts(t, ops); (s in g <==> s in t) && (s in t ==> g[s] == t[s])
    {
      ApplyPutsMiss(t, ops, s);
    }
  }

  // ---------------------------------------------------------------------
  // Referential consistency
  // ---------------------------------------------------------------------

  /** The basic row an index row may point at is present. */
  ghost predicate LiveBasic(t: Tables, cfg: TokenConfig, basicId: string)
  {
    ItemKey(cfg.basicCName, basicId) in t && t[ItemKey(cfg.basicCName, basicId)].Basic?
  }

  /** Every index row in the access and refresh tables points at a present basic row. */
  ghost predicate Consistent(t: Tables, cfg: TokenConfig)
  {
    forall s :: s in t && (s.table == cfg.accessCName || s.table == cfg.refreshCName) && t[s].Token?
      ==> LiveBasic(t, cfg, t[s].token.basicId)
  }

  /** A committed grant keeps every index row pointing at a basic row. */
  lemma {:induction false} GrantKeepsConsistent(t: Tables, cfg: TokenConfig, info: TokenInfo, id: string)
    requires cfg.basicCName != cfg.accessCName && cfg.basicCName != cfg.refreshCName
    requires DistinctTargets(GrantOps(cfg, info, id))
    requires Consistent(t, cfg)
    ensures Consistent(ApplyPuts(t, GrantOps(cfg, info, id)), cfg)
  {
    var g := ApplyPuts(t, GrantOps(cfg, info, id));
    GrantRows(t, cfg, info, id);
    var basicSlot := ItemKey(cfg.basicCName, id);
    var accessSlot := ItemKey(cfg.accessCName, info.access);
    var refreshSlot := ItemKey(cfg.refreshCName, info.refresh);
    forall s | s in g && (s.table == cfg.accessCName || s.table == cfg.refreshCName) && g[s].Token?
      ensures LiveBasic(g, cfg, g[s].token.basicId)
    {
      if s == accessSlot || (info.refresh != "" && s == refreshSlot) {
        assert g[s].token.basicId == id;
      } else {
        assert s != basicSlot;
        assert s in t && g[s] == t[s];
        var b := ItemKey(cfg.basicCName, t[s].token.basicId);
        assert LiveBasic(t, cfg, t[s].token.basicId);
        if b != basicSlot {
          assert b != accessSlot && b != refreshSlot;
        }
      }
    }
  }

  /** Writing a code row keeps every index row pointing at a basic row. */
  lemma CodeRowKeepsConsistent(t: Tables, cfg: TokenConfig, info: TokenInfo)
    requires cfg.basicCName != cfg.accessCName && cfg.basicCName != cfg.refreshCName
    requires Consistent(t, cfg)
    ensures Consistent(t[ItemKey(cfg.basicCName, info.code) := CodeRow(info)], cfg)
  {
  }

  /** Removing a row outside the basic table keeps every index row pointing at a basic row. */
  lemma IndexRemovalKeepsConsistent(t: Tables, cfg: TokenConfig, table: string, key: string)
    requires table != cfg.basicCName
    requires Consistent(t, cfg)
    ensures Consistent(t - {ItemKey(table, key)}, cfg)
  {
  }

  /** Removing a basic row does not cascade, so it can leave an index row dangling. */
  lemma BasicRemovalCanDangle()
    ensures exists t: Tables, cfg: TokenConfig, key: string ::
      Consistent(t, cfg) && !Consistent(t - {ItemKey(cfg.basicCName, key)}, cfg)
  {
    var cfg := NewDefaultTokenConfig();
    var basicSlot, accessSlot := ItemKey(cfg.basicCName, "g"), ItemKey(cfg.accessCName, "a");
    var t: Tables := map[basicSlot := Basic(BasicData("g", NoData, 0)), accessSlot := Token(TokenData("a", "g", 0))];
    assert Consistent(t, cfg);
    var t' := t - {basicSlot};
    assert accessSlot in t' && t'[accessSlot].Token? && !LiveBasic(t', cfg, t'[accessSlot].token.basicId);
  }

  // ---------------------------------------------------------------------
  // The registry
  // ---------------------------------------------------------------------

  class TokenStore {
    const cfg: TokenConfig
    const db: Db

    /** NewTokenStoreWithSession: the first supplied configuration, if any, replaces the default wholesale. */
    constructor WithSession(db: Db, tcfgs: seq<TokenConfig>)
      ensures this.db == db
      ensures |tcfgs| > 0 ==> cfg == tcfgs[0]
      ensures |tcfgs| == 0 ==> cfg == NewDefaultTokenConfig()
    {
      var c := NewDefaultTokenConfig();
      if |tcfgs| > 0 {
        c := tcfgs[0];
      }
      this.db := db;
      this.cfg := c;
    }

    /**
     * Create: with a code, one basic row keyed by the code; otherwise one
     * transaction writing a basic row under the generated id, an access row
     * and, when there is a refresh token, a refresh row. On any failure no
     * row changes.
     */
    method Create(info: TokenInfo, id: string, env: Env) returns (o: Outcome)
      requires db.Valid()
      modifies db
      ensures db.Valid()
      ensures o.Fail? ==> db.tables == old(db.tables)
      ensures !env.encodes(info) ==> o == Fail(Serialization)
      ensures env.encodes(info) && info.code != "" ==>
        var slot := ItemKey(cfg.basicCName, info.code);
        && (o.Pass? <==> env.marshals(CodeRow(info)) && env.answers(slot))
        && (o.Fail? ==> o.error == if env.marshals(CodeRow(info)) then Unavailable else Serialization)
        && (o.Pass? ==> db.tables == old(db.tables)[slot := CodeRow(info)])
      ensures env.encodes(info) && info.code == "" ==>
        var ops := GrantOps(cfg, info, id);
        && (o.Pass? <==> AllMarshal(ops, env) && env.commits && DistinctTargets(ops))
        && (o.Fail? ==> o.error == if AllMarshal(ops, env) then Transaction else Serialization)
        && (o.Pass? ==> db.tables == ApplyPuts(old(db.tables), ops))
    {
      if !env.encodes(info) {
        return Fail(Serialization);
      }
      var jv := Json(info);
      if info.code != "" {
        o := Insert(Basic(BasicData(info.code, jv, info.codeCreateAt + info.codeExpiresIn)),
                    cfg.basicCName, db, env);
        return;
      }

      var aexp := info.accessCreateAt + info.accessExpiresIn;
      var rexp := aexp;
      if info.refresh != "" {
        rexp := info.refreshCreateAt + info.refreshExpiresIn;
        if Second(aexp) > Second(rexp) {
          aexp := rexp;
        }
      }
      assert aexp == AccessExpiry(info) && rexp == GrantExpiry(info);
      ghost var spec := GrantOps(cfg, info, id);

      var oauthBasic := Basic(BasicData(id, jv, rexp));
      if !env.marshals(oauthBasic) {
        assert spec[0].item == oauthBasic;
        return Fail(Serialization);
      }
      var oauthAccess := Token(TokenData(info.access, id, aexp));
      if !env.marshals(oauthAccess) {
        assert spec[1].item == oauthAccess;
        return Fail(Serialization);
      }
      var ops := [Put(cfg.basicCName, oauthBasic), Put(cfg.accessCName, oauthAccess)];
      if info.refresh != "" {
        var oauthRefresh := Token(TokenData(info.refresh, id, rexp));
        if !env.marshals(oauthRefresh) {
          assert spec[2].item == oauthRefresh;
          return Fail(Serialization);
        }
        ops := ops + [Put(cfg.refreshCName, oauthRefresh)];
      }
      assert ops == spec;
      o := db.TransactWriteItems(ops, env);
    }

    /** RemoveByCode: deletes the basic row under the code and nothing else. */
    method RemoveByCode(code: string, env: Env) returns (o: Outcome)
      requires db.Valid()
      modifies db
      ensures db.Valid()
      ensures o.Pass? <==> env.marshalsKey(code) && env.answers(ItemKey(cfg.basicCName, code))
      ensures o.Fail? ==> o.error == if env.marshalsKey(code) then Unavailable else Serialization
      ensures db.tables == if o.Pass? then old(db.tables) - {ItemKey(cfg.basicCName, code)}
                           else old(db.tables)
    {
      o := Remove(code, cfg.basicCName, db, env);
    }

    /** RemoveByAccess: deletes the access row under the token and nothing else. */
    method RemoveByAccess(access: string, env: Env) returns (o: Outcome)
      requires db.Valid()
      modifies db
      ensures db.Valid()
      ensures o.Pass? <==> env.marshalsKey(access) && env.answers(ItemKey(cfg.accessCName, access))
      ensures o.Fail? ==> o.error == if env.marshalsKey(access) then Unavailable else Serialization
      ensures db.tables == if o.Pass? then old(db.tables) - {ItemKey(cfg.accessCName, access)}
                           else old(db.tables)
    {
      o := Remove(access, cfg.accessCName, db, env);
    }

    /** RemoveByRefresh: deletes the refresh row under the token and nothing else. */
    method RemoveByRefresh(refresh: string, env: Env) returns (o: Outcome)
      requires db.Valid()
      modifies db
      ensures db.Valid()
      ensures o.Pass? <==> env.marshalsKey(refresh) && env.answers(ItemKey(cfg.refreshCName, refresh))
      ensures o.Fail? ==> o.error == if env.marshalsKey(refresh) then Unavailable else Serialization
      ensures db.tables == if o.Pass? then old(db.tables) - {ItemKey(cfg.refreshCName, refresh)}
                           else old(db.tables)
    {
      o := Remove(refresh, cfg.refreshCName, db, env);
    }

    /** getData: the token info of the basic row under the id. */
    function GetData(basicId: string, env: Env): (r: Result<TokenInfo>)
      reads db
      ensures var slot := ItemKey(cfg.basicCName, basicId);
        && (!env.answers(slot) ==> r == Err(Unavailable))
        && (r == Err(NotFound) <==>
              env.answers(slot) && (slot !in db.tables || AsBasic(Some(db.tables[slot])).id == ""))
        && (r.Ok? ==> slot in db.tables && db.tables[slot].Basic? && db.tables[slot].basic.id != ""
                      && db.tables[slot].basic.data == Json(r.value))
        && (env.answers(slot) && HoldsInfo(db.tables, slot) ==> r == Ok(db.tables[slot].basic.data.info))
        && ((env.answers(slot) && slot in db.tables && AsBasic(Some(db.tables[slot])).id != ""
            && AsBasic(Some(db.tables[slot])).data.NoData?) ==> r == Err(Serialization))
    {
      GetToken(basicId, cfg.basicCName, db, env)
    }

    /** getBasicID: the BasicID held by the index row under the token in the given table. */
    function GetBasicID(cname: string, token: string, env: Env): (r: Result<string>)
      reads db
      ensures var slot := ItemKey(cname, token);
        && (!env.answers(slot) ==> r == Err(Unavailable))
        && (env.answers(slot) ==> (r.Ok? <==> slot in db.tables))
        && (env.answers(slot) && slot !in db.tables ==> r == Err(NotFound))
        && (r.Ok? ==> r.value == AsToken(db.tables[slot]).basicId)
        && (r.Ok? && r.value != "" ==> db.tables[slot].Token?)
    {
      match GetToStruct(token, cname, db, env)
      case Err(e) => Err(e)
      case Ok(td) => Ok(td.basicId)
    }

    /** GetByCode: the token info of the basic row keyed by the code. */
    function GetByCode(code: string, env: Env): (r: Result<TokenInfo>)
      reads db
      ensures var slot := ItemKey(cfg.basicCName, code);
        && (!env.answers(slot) ==> r == Err(Unavailable))
        && (r == Err(NotFound) <==>
              env.answers(slot) && (slot !in db.tables || AsBasic(Some(db.tables[slot])).id == ""))
        && (r.Ok? ==> slot in db.tables && db.tables[slot].Basic? && db.tables[slot].basic.id != ""
                      && db.tables[slot].basic.data == Json(r.value))
        && (env.answers(slot) && HoldsInfo(db.tables, slot) ==> r == Ok(db.tables[slot].basic.data.info))
        && ((env.answers(slot) && slot in db.tables && AsBasic(Some(db.tables[slot])).id != ""
            && AsBasic(Some(db.tables[slot])).data.NoData?) ==> r == Err(Serialization))
    {
      GetData(code, env)
    }

    /**
     * GetByAccess: resolves the access row to its basic row. A failed index
     * lookup is returned as it is, without reading the basic table.
     */
    function GetByAccess(access: string, env: Env): (r: Result<TokenInfo>)
      reads db
      ensures var index := ItemKey(cfg.accessCName, access);
        && (GetBasicID(cfg.accessCName, access, env).Err? ==>
              r == Err(GetBasicID(cfg.accessCName, access, env).error))
        && (env.answers(index) && index !in db.tables ==> r == Err(NotFound))
        && (r.Ok? ==> index in db.tables
                      && var basic := ItemKey(cfg.basicCName, AsToken(db.tables[index]).basicId);
                      basic in db.tables && db.tables[basic].Basic? && db.tables[basic].basic.id != ""
                      && db.tables[basic].basic.data == Json(r.value))
        && (env.answers(index) && index in db.tables ==>
              var basic := ItemKey(cfg.basicCName, AsToken(db.tables[index]).basicId);
              && (!env.answers(basic) ==> r == Err(Unavailable))
              && (env.answers(basic) && basic !in db.tables ==> r == Err(NotFound))
              && ((env.answers(basic) && basic in db.tables && AsBasic(Some(db.tables[basic])).id == "")
                  ==> r == Err(NotFound))
              && ((env.answers(basic) && basic in db.tables && AsBasic(Some(db.tables[basic])).id != ""
                  && AsBasic(Some(db.tables[basic])).data.NoData?) ==> r == Err(Serialization))
              && (env.answers(basic) && HoldsInfo(db.tables, basic)
                  ==> r == Ok(db.tables[basic].basic.data.info)))
    {
      var basicId := GetBasicID(cfg.accessCName, access, env);
      match basicId
      case Err(e) => Err(e)
      case Ok(bid) => GetData(bid, env)
    }

    /**
     * GetByRefresh: resolves the refresh row to its basic row. A failed index
     * lookup is returned as it is, without reading the basic table.
     */
    function GetByRefresh(refresh: string, env: Env): (r: Result<TokenInfo>)
      reads db
      ensures var index := ItemKey(cfg.refreshCName, refresh);
        && (GetBasicID(cfg.refreshCName, refresh, env).Err? ==>
              r == Err(GetBasicID(cfg.refreshCName, refresh, env).error))
        && (env.answers(index) && index !in db.tables ==> r == Err(NotFound))
        && (r.Ok? ==> index in db.tables
                      && var basic := ItemKey(cfg.basicCName, AsToken(db.tables[index]).basicId);
                      basic in db.tables && db.tables[basic].Basic? && db.tables[basic].basic.id != ""
                      && db.tables[basic].basic.data == Json(r.value))
        && (env.answers(index) && index in db.tables ==>
              var basic := ItemKey(cfg.basicCName, AsToken(db.tables[index]).basicId);
              && (!env.answers(basic) ==> r == Err(Unavailable))
              && (env.answers(basic) && basic !in db.tables ==> r == Err(NotFound))
              && ((env.answers(basic) && basic in db.tables && AsBasic(Some(db.tables[basic])).id == "")
                  ==> r == Err(NotFound))
              && ((env.answers(basic) && basic in db.tables && AsBasic(Some(db.tables[basic])).id != ""
                  && AsBasic(Some(db.tables[basic])).data.NoData?) ==> r == Err(Serialization))
              && (env.answers(basic) && HoldsInfo(db.tables, basic)
                  ==> r == Ok(db.tables[basic].basic.data.info)))
    {
      var basicId := GetBasicID(cfg.refreshCName, refresh, env);
      match basicId
      case Err(e) => Err(e)
      case Ok(bid) => GetData(bid, env)
    }
  }

  // ---------------------------------------------------------------------
  // What the lookups see after Create and the removals
  // ---------------------------------------------------------------------

  /** A code row reads back as the token info it was written from. */
  lemma CodeRoundTrip(ts: TokenStore, t: Tables, info: TokenInfo, env: Env)
    requires info.code != ""
    requires ts.db.tables == t[ItemKey(ts.cfg.basicCName, info.code) := CodeRow(info)]
    requires env.answers(ItemKey(ts.cfg.basicCName, info.code))
    ensures ts.GetByCode(info.code, env) == Ok(info)
  {
  }

  /**
   * After a committed grant the generated id, the access token and the
   * refresh token all resolve to the same token info.
   */
  lemma GrantResolves(ts: TokenStore, t: Tables, info: TokenInfo, id: string, env: Env)
    requires id != ""
    requires DistinctTargets(GrantOps(ts.cfg, info, id))
    requires ts.db.tables == ApplyPuts(t, GrantOps(ts.cfg, info, id))
    requires env.answers(ItemKey(ts.cfg.basicCName, id))
    requires env.answers(ItemKey(ts.cfg.accessCName, info.access))
    requires info.refresh != "" ==> env.answers(ItemKey(ts.cfg.refreshCName, info.refresh))
    ensures ts.GetData(id, env) == Ok(info)
    ensures ts.GetByAccess(info.access, env) == Ok(info)
    ensures info.refresh != "" ==> ts.GetByRefresh(info.refresh, env) == Ok(info)
  {
    GrantRows(t, ts.cfg, info, id);
  }

  /**
   * Removing the access token of a grant leaves its refresh row and basic
   * row: the access token no longer resolves, the refresh token still does.
   */
  lemma RemoveAccessKeepsRefresh(ts: TokenStore, t: Tables, info: TokenInfo, id: string, env: Env)
    requires id != "" && info.refresh != ""
    requires DistinctTargets(GrantOps(ts.cfg, info, id))
    requires ts.db.tables
             == ApplyPuts(t, GrantOps(ts.cfg, info, id)) - {ItemKey(ts.cfg.accessCName, info.access)}
    requires env.answers(ItemKey(ts.cfg.basicCName, id))
    requires env.answers(ItemKey(ts.cfg.accessCName, info.access))
    requires env.answers(ItemKey(ts.cfg.refreshCName, info.refresh))
    ensures ts.GetByAccess(info.access, env) == Err(NotFound)
    ensures ts.GetByRefresh(info.refresh, env) == Ok(info)
    ensures ts.GetData(id, env) == Ok(info)
  {
    GrantRows(t, ts.cfg, info, id);
    var ops := GrantOps(ts.cfg, info, id);
    assert ops[1].Target() != ops[2].Target();
    assert ops[0].Target() != ops[1].Target();
  }

  /**
   * Removing a grant's basic row by its id leaves the access row pointing at
   * nothing: the access token then reads as NotFound.
   */
  lemma DanglingAccessIsNotFound(ts: TokenStore, t: Tables, info: TokenInfo, id: string, env: Env)
    requires DistinctTargets(GrantOps(ts.cfg, info, id))
    requires ts.db.tables
             == ApplyPuts(t, GrantOps(ts.cfg, info, id)) - {ItemKey(ts.cfg.basicCName, id)}
    requires env.answers(ItemKey(ts.cfg.basicCName, id))
    requires env.answers(ItemKey(ts.cfg.accessCName, info.access))
    ensures ts.GetByAccess(info.access, env) == Err(NotFound)
  {
    GrantRows(t, ts.cfg, info, id);
  }

  /** Likewise for the refresh token of a grant whose basic row was removed. */
  lemma DanglingRefreshIsNotFound(ts: TokenStore, t: Tables, info: TokenInfo, id: string, env: Env)
    requires info.refresh != ""
    requires DistinctTargets(GrantOps(ts.cfg, info, id))
    requires ts.db.tables
             == ApplyPuts(t, GrantOps(ts.cfg, info, id)) - {ItemKey(ts.cfg.basicCName, id)}
    requires env.answers(ItemKey(ts.cfg.basicCName, id))
    requires env.answers(ItemKey(ts.cfg.refreshCName, info.refresh))
    ensures ts.GetByRefresh(info.refresh, env) == Err(NotFound)
  {
    GrantRows(t, ts.cfg, info, id);
    var ops := GrantOps(ts.cfg, info, id);
    assert ops[0].Target() != ops[2].Target();
  }
}
