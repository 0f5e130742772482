/** Values shared by the authentication use cases: users, token payloads and
    pairs, and the errors the use cases raise. Password hashing and JWT
    signing are functions the use cases are given. */
module AuthModel {
  type UserId = nat

  /** A stored user; `password` holds the hash, never the plaintext. */
  datatype User = User(id: UserId, firstName: string, lastName: string, email: string, password: string)

  /** What a token carries: the user id as subject, and the email. */
  datatype TokenPayload = TokenPayload(sub: UserId, email: string)
  datatype TokenPair = TokenPair(accessToken: string, refreshToken: string)

  /** The user as the use cases return it: no password. */
  datatype PublicUser = PublicUser(id: UserId, firstName: string, lastName: string, email: string)

  /** `{ ...tokens, user }` as register and login return it. */
  datatype AuthResult = AuthResult(tokens: TokenPair, user: PublicUser)

  datatype AuthError = EmailAlreadyInUse(email: string) | InvalidCredentials | InvalidRefreshToken

  function ToPublic(u: User): PublicUser
  {
    PublicUser(u.id, u.firstName, u.lastName, u.email)
  }

  /** The payload the use cases sign for a user. */
  function PayloadOf(u: User): TokenPayload
  {
    TokenPayload(u.id, u.email)
  }
}
