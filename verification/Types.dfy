/** The records, errors and idealised primitives shared by every module. */
module Types {
  /** A reading of the clock, in nanoseconds. */
  type Time = int

  datatype Option<+T> = None | Some(value: T)

  datatype Error =
    | ErrNotFound
    | ErrSessionNotOwned
    | ErrConstraint
    | ErrInvalidToken
    | ErrTokenReused
    | ErrUserExists
    | ErrInvalidCredentials
    | ErrRateLimited
    | ErrAccountLocked
    | ErrVerificationTokenInvalid
    | ErrVerificationTokenExpired

  datatype Result<+T> = Ok(value: T) | Err(error: Error)

  /** SHA-256 is idealised as an injection: a digest is determined by, and
      determines, the raw token it was computed from. */
  datatype Digest = Digest(raw: string)

  function HashToken(raw: string): Digest {
    Digest(raw)
  }

  datatype Session = Session(
    id: string,
    familyId: string,
    userId: string,
    tokenHash: Digest,
    ip: string,
    userAgent: string,
    createdAt: Time,
    revokedAt: Option<Time>)

  datatype User = User(
    id: string,
    email: string,
    passwordHash: string,
    failedAttempts: int,
    lockedUntil: Option<Time>)

  datatype Purpose = EmailVerify | EmailChange

  datatype VerificationToken = VerificationToken(
    id: string,
    userId: string,
    purpose: Purpose,
    tokenHash: Digest,
    newEmail: string,
    expiresAt: Time,
    usedAt: Option<Time>)

  datatype EventType =
    | SignupSuccess
    | LoginSuccess
    | LoginFailed
    | LoggedOut
    | LoggedOutAll
    | TokenRotated
    | TokenReuseDetected
    | SessionRevoked
    | AccountLocked
    | PasswordChanged
    | EmailChangeRequested
    | EmailChanged
    | AccountDeleted

  datatype AuditEvent = AuditEvent(
    kind: EventType,
    userId: string,
    ip: string,
    metadata: map<string, string>)
}
