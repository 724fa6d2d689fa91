/** The persisted entities: users and refresh-token rows. */
module Models {
  import opened Wrappers
  import opened Tokens

  /** A registered user; its username is its email. */
  datatype User = User(id: string, email: string, password: string)

  /**
   * A refresh-token row.  `id` is the store's document id, unassigned (`None`)
   * until the store assigns one; `expiryDate` is an instant in milliseconds.
   */
  datatype RefreshToken = RefreshToken(id: Option<string>, token: Text, userId: string, expiryDate: int)
  {
    /** `now.isAfter(expiryDate)`. */
    predicate IsExpired(now: int): (expired: bool)
      ensures expired <==> expiryDate < now
    {
      now > expiryDate
    }
  }

  /** The three-argument constructor: the given token, owner and expiry, with no document id yet. */
  function NewRefreshToken(token: Text, userId: string, expiryDate: int): (r: RefreshToken)
    ensures r.id.None? && r.token == token && r.userId == userId && r.expiryDate == expiryDate
  {
    RefreshToken(None, token, userId, expiryDate)
  }

  /** Expiry is strict: a row is expired exactly at the instants after its expiry date. */
  lemma ExpiredExactlyAfter(r: RefreshToken, now: int)
    ensures r.IsExpired(now) <==> r.expiryDate < now
    ensures !r.IsExpired(r.expiryDate)
  {
  }
}
