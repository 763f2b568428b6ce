/** Conversion between the domain's session credentials and the form stored in
    (encrypted) preferences. */
module AuthInfoMapper {

  /** The domain's `AuthInfo`. */
  datatype AuthInfo = AuthInfo(accessToken: string, refreshToken: string, userId: string)

  /** `AuthInfoSerializable`, the stored form. */
  datatype AuthInfoSerializable = AuthInfoSerializable(accessToken: string, refreshToken: string, userId: string)

  /** `AuthInfo.toAuthInfoSerializable()`: each field goes to the field of the same name. */
  function ToAuthInfoSerializable(a: AuthInfo): (s: AuthInfoSerializable)
    ensures s.accessToken == a.accessToken
    ensures s.refreshToken == a.refreshToken
    ensures s.userId == a.userId
  {
    AuthInfoSerializable(accessToken := a.accessToken, refreshToken := a.refreshToken, userId := a.userId)
  }

  /** `AuthInfoSerializable.toAuthInfo()`: each field goes to the field of the same name. */
  function ToAuthInfo(s: AuthInfoSerializable): (a: AuthInfo)
    ensures a.accessToken == s.accessToken
    ensures a.refreshToken == s.refreshToken
    ensures a.userId == s.userId
  {
    AuthInfo(accessToken := s.accessToken, refreshToken := s.refreshToken, userId := s.userId)
  }

  /** Storing and reloading credentials gives them back unchanged. */
  lemma StoreThenLoad(a: AuthInfo)
    ensures ToAuthInfo(ToAuthInfoSerializable(a)) == a
  {
  }

  /** Loading and re-storing a stored record gives it back unchanged. */
  lemma LoadThenStore(s: AuthInfoSerializable)
    ensures ToAuthInfoSerializable(ToAuthInfo(s)) == s
  {
  }

  /** Both conversions are one-to-one: distinct credentials are stored differently. */
  lemma ConversionsAreInjective(a: AuthInfo, b: AuthInfo, s: AuthInfoSerializable, t: AuthInfoSerializable)
    ensures ToAuthInfoSerializable(a) == ToAuthInfoSerializable(b) ==> a == b
    ensures ToAuthInfo(s) == ToAuthInfo(t) ==> s == t
  {
    StoreThenLoad(a);
    StoreThenLoad(b);
    LoadThenStore(s);
    LoadThenStore(t);
  }
}
