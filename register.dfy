/** `RegisterUseCase`: create an account for an email nobody uses yet. */
module Register {
  import opened Common
  import opened AuthModel
  import opened UserStore

  /** `execute`. `hash` stands for the password hasher and `generateTokens`
      for the token signer. */
  method Execute(userRepository: UserRepository, email: string, password: string, firstName: string,
                 lastName: string, hash: string -> string, generateTokens: TokenPayload -> TokenPair)
    returns (r: Result<AuthResult, AuthError>)
    requires userRepository.Valid()
    modifies userRepository
    ensures userRepository.Valid()
    // a taken email is refused, and nothing is stored
    ensures (exists u :: u in old(userRepository.users) && u.email == email) <==> r.Err?
    ensures r.Err? ==> r.error == EmailAlreadyInUse(email) && userRepository.users == old(userRepository.users)
    // otherwise one user is added, holding the hash of the password
    ensures r.Ok? ==>
      var user := User(|old(userRepository.users)|, firstName, lastName, email, hash(password));
      && userRepository.users == old(userRepository.users) + [user]
      && r.value == AuthResult(generateTokens(PayloadOf(user)), ToPublic(user))
    // registration never introduces a second user with the same email
    ensures UniqueEmails(old(userRepository.users)) ==> UniqueEmails(userRepository.users)
  {
    var existingUser := userRepository.FindByEmail(email);
    if existingUser.Some? {
      return Err(EmailAlreadyInUse(email));
    }
    var hashedPassword := hash(password);
    var user := userRepository.Create(firstName, lastName, email, hashedPassword);
    var tokens := generateTokens(TokenPayload(user.id, user.email));
    r := Ok(AuthResult(tokens, PublicUser(user.id, user.firstName, user.lastName, user.email)));
  }
}
