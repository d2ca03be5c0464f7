/** The authorization server's two process-wide maps, `mockUsers` and
    `mockAuthCodes`, each absent until a handler first creates it. */
module Store {
  import opened Wrappers
  import opened Http

  /** What `authenticate` records for an issued code. */
  datatype Pending = Pending(
    codeChallenge: Option<string>,
    codeChallengeMethod: Option<string>,
    clientId: Option<string>,
    expiresAt: int)

  datatype Stores = Stores(
    users: Option<map<string, string>>,
    codes: Option<map<string, Pending>>)

  /** A handler's response together with the stores it leaves behind. */
  datatype Outcome = Outcome(response: Response, stores: Stores)

  /** The account created along with the user map. */
  const DefaultUsername := "user"
  const DefaultPassword := "password"

  /** The user map as a handler sees it after creating it on first use. */
  function Users(st: Stores): map<string, string>
  {
    if st.users.Some? then st.users.value else map[DefaultUsername := DefaultPassword]
  }

  /** The code map as a handler sees it after creating it on first use. */
  function Codes(st: Stores): map<string, Pending>
  {
    if st.codes.Some? then st.codes.value else map[]
  }
}
