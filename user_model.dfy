/** The user document of the `User` schema (backend/models/user.model.js). */
module UserModel {
  import opened Base
  import Bcrypt

  /** One stored user. The reset expiry is called `resetPasswordExpiresAt`,
      the name the auth controller writes and queries; the schema itself
      declares `resetPasswordExpires` (see `SchemaPaths`). `None` is a path
      that is unset in the document. */
  datatype User = User(
    id: UserId,
    email: string,
    password: Bcrypt.Digest,
    name: string,
    lastLogin: Millis,
    isVerified: bool,
    resetPasswordToken: Option<string>,
    resetPasswordExpiresAt: Option<Millis>,
    verificationToken: Option<string>,
    verificationTokenExpiresAt: Option<Millis>,
    createdAt: Millis,
    updatedAt: Millis)

  /** `new User({ email, password, name, verificationToken,
      verificationTokenExpiresAt })` built at time `now`: `lastLogin`
      defaults to `Date.now`, `isVerified` to false, the reset fields are
      unset and the timestamps are both `now`. */
  function NewUser(id: UserId, email: string, password: Bcrypt.Digest, name: string,
                   verificationToken: Option<string>, verificationTokenExpiresAt: Option<Millis>,
                   now: Millis): (u: User)
    ensures u.id == id && u.email == email && u.password == password && u.name == name
    ensures u.verificationToken == verificationToken
    ensures u.verificationTokenExpiresAt == verificationTokenExpiresAt
    ensures !u.isVerified && u.lastLogin == now
    ensures u.resetPasswordToken.None? && u.resetPasswordExpiresAt.None?
    ensures u.createdAt == now && u.updatedAt == now
  {
    User(id, email, password, name, now, false, None, None,
         verificationToken, verificationTokenExpiresAt, now, now)
  }

  /** What schema validation checks before `save`: `email` and `name` are
      required, which for a mongoose string path rejects the empty string.
      `password` is required too; a digest is never missing. */
  predicate Conforms(u: User)
  {
    u.email != "" && u.name != ""
  }

  /** `email` is declared unique: no two stored users share one. */
  predicate EmailsUnique(users: seq<User>)
  {
    forall i, j :: 0 <= i < j < |users| ==> users[i].email != users[j].email
  }

  /** The paths the schema declares, besides `_id` and the timestamps. */
  function SchemaPaths(): (paths: set<string>)
    ensures "resetPasswordExpires" in paths && "resetPasswordExpiresAt" !in paths
    ensures "verificationTokenExpiresAt" in paths
  {
    {"email", "password", "name", "lastLogin", "isVerified", "resetPasswordToken",
     "resetPasswordExpires", "verificationToken", "verificationTokenExpiresAt"}
  }

  /** The paths the auth controller assigns or queries on a user document. */
  function ControllerPaths(): set<string>
  {
    {"email", "password", "name", "lastLogin", "isVerified", "resetPasswordToken",
     "resetPasswordExpiresAt", "verificationToken", "verificationTokenExpiresAt"}
  }

  /** Exactly one path the controller uses is missing from the schema:
      the reset expiry. */
  lemma ResetExpiryPathMismatch()
    ensures ControllerPaths() - SchemaPaths() == {"resetPasswordExpiresAt"}
    ensures SchemaPaths() - ControllerPaths() == {"resetPasswordExpires"}
  {
  }

  /** A user as the controllers send it back: every field of the document
      except the password hash, including the outstanding codes and tokens. */
  datatype PublicUser = PublicUser(
    id: UserId,
    email: string,
    name: string,
    lastLogin: Millis,
    isVerified: bool,
    resetPasswordToken: Option<string>,
    resetPasswordExpiresAt: Option<Millis>,
    verificationToken: Option<string>,
    verificationTokenExpiresAt: Option<Millis>,
    createdAt: Millis,
    updatedAt: Millis)

  /** `{ ...user._doc, password: undefined }` and `.select('-password')`. */
  function Sanitize(u: User): (p: PublicUser)
    ensures WithPassword(p, u.password) == u
  {
    PublicUser(u.id, u.email, u.name, u.lastLogin, u.isVerified,
               u.resetPasswordToken, u.resetPasswordExpiresAt,
               u.verificationToken, u.verificationTokenExpiresAt,
               u.createdAt, u.updatedAt)
  }

  /** Putting a password back into a public user. */
  function WithPassword(p: PublicUser, password: Bcrypt.Digest): User
  {
    User(p.id, p.email, password, p.name, p.lastLogin, p.isVerified,
         p.resetPasswordToken, p.resetPasswordExpiresAt,
         p.verificationToken, p.verificationTokenExpiresAt,
         p.createdAt, p.updatedAt)
  }

  /** Sanitizing drops the password and nothing else: the document is the
      public user plus its hash, and two documents with the same public
      view differ at most in their password. */
  lemma SanitizeDropsOnlyPassword(u: User, v: User)
    ensures WithPassword(Sanitize(u), u.password) == u
    ensures Sanitize(u) == Sanitize(v) <==> u.(password := v.password) == v
  {
  }
}
