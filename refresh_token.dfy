/** `RefreshTokenUseCase`: exchange a refresh token for a new pair. Every
    failure inside it is reported as `InvalidRefreshToken`. */
module RefreshToken {
  import opened Common
  import opened AuthModel
  import opened UserStore

  /** `execute`. `verifyRefreshToken` stands for the JWT check with the
      refresh secret: `None` when it throws (bad signature, expired,
      malformed). The user store is only read. */
  function Execute(userRepository: UserRepository, refreshToken: string,
                   verifyRefreshToken: string -> Option<TokenPayload>, generateTokens: TokenPayload -> TokenPair)
    : (r: Result<TokenPair, AuthError>)
    reads userRepository
    requires userRepository.Valid()
    ensures r.Err? ==> r.error == InvalidRefreshToken
    ensures r.Ok? <==> verifyRefreshToken(refreshToken).Some? &&
                       userRepository.FindById(verifyRefreshToken(refreshToken).value.sub).Some?
    // the new pair is signed for the stored user, not for the email the old token carried
    ensures r.Ok? ==> exists u :: u in userRepository.users && u.id == verifyRefreshToken(refreshToken).value.sub &&
                        r.value == generateTokens(PayloadOf(u))
  {
    match verifyRefreshToken(refreshToken)
    case None => Err(InvalidRefreshToken)
    case Some(payload) =>
      match userRepository.FindById(payload.sub)
      case None => Err(InvalidRefreshToken)
      case Some(user) => Ok(generateTokens(TokenPayload(user.id, user.email)))
  }

  /** Two tokens for the same subject refresh to the same pair, whatever
      email each of them carries. */
  lemma PayloadEmailIgnored(userRepository: UserRepository, token1: string, token2: string,
                            verifyRefreshToken: string -> Option<TokenPayload>, generateTokens: TokenPayload -> TokenPair)
    requires userRepository.Valid()
    requires verifyRefreshToken(token1).Some? && verifyRefreshToken(token2).Some?
    requires verifyRefreshToken(token1).value.sub == verifyRefreshToken(token2).value.sub
    ensures Execute(userRepository, token1, verifyRefreshToken, generateTokens)
         == Execute(userRepository, token2, verifyRefreshToken, generateTokens)
  {
  }
}
