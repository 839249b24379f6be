/** The user document: name and email normalisation, the role enum with its
    default, the business-name requirement for sellers and admins, the
    cart-line quantity rule, the `displayName` virtual and the JSON
    transform that drops the password. */
module UserModel {
  import opened Types
  import Text

  // ---------------------------------------------------------------------
  // Role

  function RoleName(r: Role): string {
    match r
    case Customer => "customer"
    case Seller => "seller"
    case Admin => "admin"
  }

  /** The `role` path: absent means the default customer; a value must be
      one of the three names. */
  function ParseRole(raw: Option<string>): (r: Result<Role>)
    ensures raw.None? ==> r == Ok(Customer)
    ensures raw.Some? ==> (r.Ok? <==> raw.value in ["customer", "seller", "admin"])
    ensures raw.Some? && r.Ok? ==> RoleName(r.value) == raw.value
    ensures r.Err? ==> r.failure == ValidationFailed
  {
    match raw
    case None => Ok(Customer)
    case Some(s) =>
      if s == "customer" then Ok(Customer)
      else if s == "seller" then Ok(Seller)
      else if s == "admin" then Ok(Admin)
      else Err(ValidationFailed)
  }

  lemma RoleRoundTrip(r: Role)
    ensures ParseRole(Some(RoleName(r))) == Ok(r)
  {
  }

  // ---------------------------------------------------------------------
  // String paths

  /** A string with no upper-case letter, which lower-casing leaves alone. */
  predicate LowerStable(s: string) {
    forall i :: 0 <= i < |s| ==> !Text.IsUpper(s[i])
  }

  /** The `email` setters: `lowercase`, then `trim`. */
  function NormalizeEmail(raw: string): string {
    Text.Trim(Text.Lower(raw))
  }

  lemma LowerOfStable(s: string)
    requires LowerStable(s)
    ensures Text.Lower(s) == s
  {
  }

  lemma {:induction false} LowerIsStable(s: string)
    ensures LowerStable(Text.Lower(s))
  {
    forall i | 0 <= i < |s| ensures !Text.IsUpper(Text.Lower(s)[i]) {
      assert Text.Lower(s)[i] == Text.LowerChar(s[i]);
    }
  }

  /** Trimming keeps only characters of the input, so it keeps stability. */
  lemma TrimKeepsStable(s: string)
    requires LowerStable(s)
    ensures LowerStable(Text.Trim(s))
  {
    var t := Text.TrimStart(s);
    var a := |s| - |t|;
    assert t == s[a..];
    assert LowerStable(t) by {
      forall i | 0 <= i < |t| ensures !Text.IsUpper(t[i]) {
        assert t[i] == s[a + i];
      }
    }
    var r := Text.TrimEnd(t);
    assert r == t[..|r|];
    forall i | 0 <= i < |r| ensures !Text.IsUpper(r[i]) {
      assert r[i] == t[i];
    }
  }

  /** Storing an email twice stores the same value: normalising is
      idempotent, so a stored email is its own normal form. */
  lemma NormalizeEmailIdempotent(raw: string)
    ensures NormalizeEmail(NormalizeEmail(raw)) == NormalizeEmail(raw)
    ensures LowerStable(NormalizeEmail(raw))
  {
    var lowered := Text.Lower(raw);
    LowerIsStable(raw);
    TrimKeepsStable(lowered);
    var e := Text.Trim(lowered);
    LowerOfStable(e);
    Text.TrimIdempotent(lowered);
  }

  /** The `trim` setter of the name paths. */
  function NormalizeName(raw: string): string {
    Text.Trim(raw)
  }

  // ---------------------------------------------------------------------
  // Cart line quantity

  /** The cart line's `quantity` path: default 1, minimum 1. */
  function CartLineQuantity(q: Option<int>): (r: Result<int>)
    ensures r.Ok? ==> r.value >= 1
    ensures q.None? ==> r == Ok(1)
    ensures q.Some? ==> (r.Ok? <==> q.value >= 1) && (r.Ok? ==> r.value == q.value)
  {
    match q
    case None => Ok(1)
    case Some(n) => if n >= 1 then Ok(n) else Err(ValidationFailed)
  }

  // ---------------------------------------------------------------------
  // The document and its validation

  datatype UserCartLine = UserCartLine(book: BookId, quantity: int)

  datatype User = User(
    firstName: string,
    lastName: string,
    email: string,
    password: string,
    role: Role,
    businessName: Option<string>,
    cart: seq<UserCartLine>,
    wishlist: seq<BookId>)

  /** What a registration submits, before setters and defaults. */
  datatype Registration = Registration(
    firstName: string,
    lastName: string,
    email: string,
    password: string,
    role: Option<string>,
    businessName: Option<string>)

  /** A `required` string path holds a non-empty string. */
  predicate Present(s: string) {
    s != ""
  }

  /** The business name is required exactly for sellers and admins. */
  predicate BusinessNameOk(role: Role, businessName: Option<string>) {
    (role == Seller || role == Admin) ==> businessName.Some? && Present(businessName.value)
  }

  /** Setters, defaults and validators applied to a registration, in the
      schema's terms; the stored password is the plain text here because
      hashing happens afterwards in the save hook. */
  function CreateUser(reg: Registration): (r: Result<User>)
    ensures r.Ok? <==>
              ParseRole(reg.role).Ok? && |reg.password| >= 6
              && Present(NormalizeName(reg.firstName)) && Present(NormalizeName(reg.lastName))
              && Present(NormalizeEmail(reg.email))
              && BusinessNameOk(ParseRole(reg.role).value, reg.businessName)
    ensures r.Ok? ==> ParseRole(reg.role).Ok? && r.value.role == ParseRole(reg.role).value
    ensures r.Ok? ==> |r.value.password| >= 6 && Present(r.value.firstName) && Present(r.value.lastName)
    ensures r.Ok? ==> Present(r.value.email) && r.value.email == NormalizeEmail(reg.email)
    ensures r.Ok? ==> BusinessNameOk(r.value.role, r.value.businessName)
    ensures r.Ok? ==> r.value.cart == [] && r.value.wishlist == []
    ensures r.Ok? ==> r.value.firstName == NormalizeName(reg.firstName)
                      && r.value.lastName == NormalizeName(reg.lastName)
                      && r.value.password == reg.password && r.value.businessName == reg.businessName
  {
    var first := NormalizeName(reg.firstName);
    var last := NormalizeName(reg.lastName);
    var email := NormalizeEmail(reg.email);
    match ParseRole(reg.role)
    case Err(f) => Err(f)
    case Ok(role) =>
      if !Present(first) || !Present(last) || !Present(email) || |reg.password| < 6
         || !BusinessNameOk(role, reg.businessName)
      then Err(ValidationFailed)
      else Ok(User(first, last, email, reg.password, role, reg.businessName, [], []))
  }

  /** A customer needs no business name; a seller without one is refused. */
  lemma BusinessNameOnlyForSellersAndAdmins(reg: Registration)
    requires ParseRole(reg.role).Ok? && |reg.password| >= 6
    requires Present(NormalizeName(reg.firstName)) && Present(NormalizeName(reg.lastName))
    requires Present(NormalizeEmail(reg.email))
    ensures ParseRole(reg.role).value == Customer ==> CreateUser(reg).Ok?
    ensures ParseRole(reg.role).value != Customer ==>
              (CreateUser(reg).Ok? <==> reg.businessName.Some? && reg.businessName.value != "")
  {
  }

  // ---------------------------------------------------------------------
  // displayName and toJSON

  /** The `displayName` virtual. */
  function DisplayName(u: User): (name: string)
    ensures |name| == |u.firstName| + 1 + |u.lastName|
    ensures name[..|u.firstName|] == u.firstName && name[|u.firstName|] == ' '
    ensures name[|u.firstName| + 1..] == u.lastName
  {
    u.firstName + " " + u.lastName
  }

  /** Index of the first space, if any. */
  function FirstSpace(s: string): (r: Option<nat>)
    ensures r.Some? ==> r.value < |s| && s[r.value] == ' ' && forall k :: 0 <= k < r.value ==> s[k] != ' '
    ensures r.None? ==> forall k :: 0 <= k < |s| ==> s[k] != ' '
  {
    if s == [] then None
    else if s[0] == ' ' then Some(0)
    else match FirstSpace(s[1..])
      case None => None
      case Some(k) => Some(k + 1)
  }

  /** The names recovered from a display name by cutting at its first
      space. */
  function SplitDisplayName(name: string): (string, string) {
    match FirstSpace(name)
    case None => (name, "")
    case Some(k) => (name[..k], name[k + 1..])
  }

  /** The display name loses nothing when the first name has no space
      (names are trimmed, but inner spaces are allowed). */
  lemma DisplayNameRoundTrip(u: User)
    requires forall k :: 0 <= k < |u.firstName| ==> u.firstName[k] != ' '
    ensures SplitDisplayName(DisplayName(u)) == (u.firstName, u.lastName)
  {
    var name := DisplayName(u);
    assert forall k :: 0 <= k < |u.firstName| ==> name[k] == u.firstName[k];
  }

  /** A JSON value of the serialised document, as far as the transform
      cares. */
  datatype Json = Str(s: string) | Arr(n: nat) | Other

  /** The document as `toJSON` sees it, with the `displayName` and `id`
      virtuals added (`virtuals: true`). */
  function Serialize(u: User, id: string): map<string, Json>
  {
    map["id" := Str(id), "firstName" := Str(u.firstName), "lastName" := Str(u.lastName),
        "email" := Str(u.email), "password" := Str(u.password), "role" := Str(RoleName(u.role)),
        "cart" := Arr(|u.cart|), "wishlist" := Arr(|u.wishlist|),
        "displayName" := Str(DisplayName(u))]
  }

  /** The `transform`: `delete ret.password`. */
  function DropPassword(ret: map<string, Json>): (r: map<string, Json>)
    ensures "password" !in r
    ensures forall k :: k in ret && k != "password" <==> k in r
    ensures forall k :: k in r ==> r[k] == ret[k]
  {
    ret - {"password"}
  }

  /** A serialised user never contains the password field, and keeps the
      display name. */
  lemma JsonHasNoPassword(u: User, id: string)
    ensures "password" !in DropPassword(Serialize(u, id))
    ensures "displayName" in DropPassword(Serialize(u, id))
            && DropPassword(Serialize(u, id))["displayName"] == Str(DisplayName(u))
  {
  }
}
