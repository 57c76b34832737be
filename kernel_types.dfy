/**
 * Rows, error codes and the abstract cryptography of the idea portal's server kernel.
 * Every table whose rows are only ever inserted (never deleted) is a sequence, and a row's
 * id is taken to be its position plus one (ids without gaps).
 */
module KernelTypes {
  import opened Options

  /**
   * The error codes the kernel returns in `{ok: false, error: ...}`; each is sent as its
   * name in snake case (`DadosInvalidos` as `"dados_invalidos"`), except `StorageFailure`.
   */
  datatype ErrorCode =
    | DadosInvalidos
    | EmailExistente
    | CredenciaisInvalidas
    | NaoAutenticado
    | TokenInvalido
    | TokenUsado
    | TokenExpirado
    | SenhaInvalida
    | AudInvalido
    | IssInvalido
    | EmailAusente
    | MissingId
    | NoFields
      /**
       * A statement the database refused (a foreign key): an exception that no route
       * catches, so the request fails without a JSON error body.
       */
    | StorageFailure

  datatype Result<+T> = Ok(value: T) | Err(error: ErrorCode)

  /**
   * SHA-256 of a token, kept symbolic: the digest records its preimage, so two digests
   * are equal exactly when the tokens are (the hash is taken to be injective).
   */
  datatype Digest = Sha256(preimage: string)

  function HashToken(token: string): Digest {
    Sha256(token)
  }

  /** A `password_hash` value (Argon2id or bcrypt), kept symbolic; the salt is not modelled. */
  datatype PasswordHash = PasswordHashOf(secret: string)

  function HashPassword(password: string): PasswordHash {
    PasswordHashOf(password)
  }

  /**
   * `password_verify(password, (string)stored)`: a NULL hash is cast to "" and never
   * verifies; otherwise the password verifies exactly against its own hash.
   */
  predicate PasswordVerify(password: string, stored: Option<PasswordHash>) {
    stored.Some? && stored.value == HashPassword(password)
  }

  /** A row of `users`. A NULL `password_hash` marks an account created by Google login. */
  datatype User = User(
    email: string,
    name: Option<string>,
    passwordHash: Option<PasswordHash>,
    emailVerified: bool,
    register: Option<string>)

  /** A row of `email_verifications` or of `password_resets`; times are seconds. */
  datatype TokenRow = TokenRow(userId: int, tokenHash: Digest, expiresAt: int, usedAt: Option<int>)

  datatype Campaign = Campaign(title: string, description: Option<string>, deadline: Option<string>, status: string)

  datatype Idea = Idea(
    title: string,
    description: string,
    campaignId: Option<int>,
    authorId: int,
    status: string,
    scoreAi: int,
    compatAi: int)

  datatype Comment = Comment(ideaId: int, userId: int, text: string, parentId: Option<int>, createdAt: int)

  /** A value stored in `$_SESSION`. */
  datatype SessionValue = IntValue(i: int) | TextValue(s: string)

  /** PHP's `$s ?: null`: the falsy strings "" and "0" become NULL. */
  function NullIfFalsy(s: string): (r: Option<string>)
    ensures r.None? <==> s == "" || s == "0"
    ensures r.Some? ==> r.value == s
  {
    if s == "" || s == "0" then None else Some(s)
  }

  function DigitChar(d: nat): char
    requires d < 10
  {
    "0123456789"[d]
  }

  /** Decimal notation of a natural number, as PHP's string concatenation writes an int. */
  function NatToString(n: nat): (s: string)
    ensures |s| >= 1
    ensures forall k :: 0 <= k < |s| ==> '0' <= s[k] <= '9'
  {
    if n < 10 then [DigitChar(n)] else NatToString(n / 10) + [DigitChar(n % 10)]
  }
}
