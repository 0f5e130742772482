/** `LoginUseCase`: exchange an email and password for a token pair. */
module Login {
  import opened Common
  import opened AuthModel
  import opened UserStore

  /** `execute`. `compare(password, hash)` stands for the password hasher's
      check and `generateTokens` for the token signer. The user store is only
      read. */
  function Execute(userRepository: UserRepository, email: string, password: string,
                   compare: (string, string) -> bool, generateTokens: TokenPayload -> TokenPair)
    : (r: Result<AuthResult, AuthError>)
    reads userRepository
    requires userRepository.Valid()
    ensures r.Ok? <==> userRepository.FindByEmail(email).Some? &&
                       compare(password, userRepository.FindByEmail(email).value.password)
    ensures r.Ok? ==> var user := userRepository.FindByEmail(email).value;
                      r.value == AuthResult(generateTokens(PayloadOf(user)), ToPublic(user))
    ensures r.Err? ==> r.error == InvalidCredentials
  {
    match userRepository.FindByEmail(email)
    case None => Err(InvalidCredentials)
    case Some(user) =>
      if !compare(password, user.password) then Err(InvalidCredentials)
      else
        var tokens := generateTokens(TokenPayload(user.id, user.email));
        Ok(AuthResult(tokens, PublicUser(user.id, user.firstName, user.lastName, user.email)))
  }

  /** An unknown email and a wrong password for a known one give the same
      answer, so a caller cannot tell which emails are registered. */
  lemma FailuresIndistinguishable(userRepository: UserRepository, unknown: string, known: string,
                                  password: string, wrong: string,
                                  compare: (string, string) -> bool, generateTokens: TokenPayload -> TokenPair)
    requires userRepository.Valid()
    requires forall u :: u in userRepository.users ==> u.email != unknown
    requires userRepository.FindByEmail(known).Some?
    requires !compare(wrong, userRepository.FindByEmail(known).value.password)
    ensures Execute(userRepository, unknown, password, compare, generateTokens)
         == Execute(userRepository, known, wrong, compare, generateTokens)
         == Err(InvalidCredentials)
  {
  }
}
