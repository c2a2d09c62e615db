/**
 * The records the registries keep: the token information handed in by the
 * OAuth2 server, the three token rows (basicData, tokenData) and the client
 * row, and how a stored row reads back as each of these structures.
 * Times and durations are whole seconds.
 */
module Records {
  import opened Results

  /** The token information the server hands to Create (models.Token). */
  datatype TokenInfo = TokenInfo(
    clientId: string,
    userId: string,
    redirectUri: string,
    scope: string,
    code: string,
    codeCreateAt: int,
    codeExpiresIn: int,
    access: string,
    accessCreateAt: int,
    accessExpiresIn: int,
    refresh: string,
    refreshCreateAt: int,
    refreshExpiresIn: int)

  /** The bytes of a basic row's Data attribute: the JSON text of a token info, or a nil slice. */
  datatype Payload = Json(info: TokenInfo) | NoData

  /** basicData: the primary row of a grant, keyed by the code or by a generated id. */
  datatype BasicData = BasicData(id: string, data: Payload, expiredAt: int)

  /** tokenData: an access- or refresh-index row pointing at a basic row. */
  datatype TokenData = TokenData(id: string, basicId: string, expiredAt: int)

  /** client: the row of a registered OAuth2 client. */
  datatype ClientRow = ClientRow(
    clientId: string,
    clientSecret: string,
    isConfidential: bool,
    redirectUri: string,
    name: string,
    userId: string,
    userType: string,
    validUntil: int,
    createTime: int,
    updateTime: int)

  /** What a client lookup hands back (models.Client with only the fields getClient sets). */
  datatype ClientInfo = ClientInfo(id: string, secret: string, userId: string)

  /** A row as the store holds it: the attribute map of one of the three structures. */
  datatype Item = Basic(basic: BasicData) | Token(token: TokenData) | Client(client: ClientRow)
  {
    /** The primary id the row is stored under. */
    function Key(): string
    {
      match this
      case Basic(b) => b.id
      case Token(t) => t.id
      case Client(c) => c.clientId
    }
  }

  /** The zero values Go leaves in a structure that nothing was decoded into. */
  const NoBasic := BasicData("", NoData, 0)
  const NoClient := ClientRow("", "", false, "", "", "", "", 0, 0, 0)

  /**
   * Decoding a fetched row (or no row) into a basicData. Attributes are
   * matched by name: a tokenData row lends its id and ExpiredAt but has no
   * Data, a client row shares no attribute, and no row leaves the zero value.
   */
  function AsBasic(row: Option<Item>): (b: BasicData)
    ensures row.Some? && row.value.Basic? ==> b == row.value.basic
    ensures b.id != "" ==> row.Some? && !row.value.Client? && b.id == row.value.Key()
    ensures b.data.Json? ==> row.Some? && row.value.Basic?
    ensures row.None? ==> b.id == ""
  {
    match row
    case None => NoBasic
    case Some(Basic(b)) => b
    case Some(Token(t)) => BasicData(t.id, NoData, t.expiredAt)
    case Some(Client(_)) => NoBasic
  }

  /** Decoding a fetched row into a tokenData; only an index row carries a BasicID. */
  function AsToken(row: Item): (t: TokenData)
    ensures row.Token? ==> t == row.token
    ensures t.basicId != "" ==> row.Token?
    ensures t.id != "" ==> t.id == row.Key()
  {
    match row
    case Basic(b) => TokenData(b.id, "", b.expiredAt)
    case Token(t) => t
    case Client(_) => TokenData("", "", 0)
  }

  /** Decoding a fetched row (or no row) into a client; only a client row shares its attributes. */
  function AsClient(row: Option<Item>): (c: ClientRow)
    ensures row.Some? && row.value.Client? ==> c == row.value.client
    ensures c.clientId != "" ==> row.Some? && row.value.Client?
    ensures row.None? ==> c.clientId == ""
  {
    match row
    case Some(Client(c)) => c
    case _ => NoClient
  }
}
