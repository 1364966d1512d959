/** The `isUserDto` type guard over a parsed JSON value. */
module UserInterfaces {
  import opened Js

  /** How a call of the guard ends: with a boolean, or with the TypeError of reading a field of `null`. */
  datatype GuardResult = Returns(holds: bool) | ThrowsTypeError

  const UserTypes := ["free", "pro", "business", "enterprise"]

  /** The shape the guard accepts, read off an object's own properties. */
  predicate UserShape(props: Props)
  {
    && Lookup(props, "User_guid").Str?
    && Lookup(props, "User_Active").Bool?
    && Lookup(props, "User_Name").Str?
    && Lookup(props, "User_Type").Str? && Lookup(props, "User_Type").s in UserTypes
  }

  /**
   * `isUserDto(obj)`: `typeof obj === 'object'`, then the types of three
   * fields and the exact value of `User_Type`, read left to right.
   */
  function IsUserDto(obj: Value): (r: GuardResult)
    ensures r.ThrowsTypeError? <==> obj.Null?
    ensures !obj.Null? ==> r == Returns(obj.Obj? && UserShape(obj.props))
  {
    if TypeOf(obj) != "object" then Returns(false)
    else
      match GetProp(obj, "User_guid")
      case None => ThrowsTypeError
      case Some(guid) =>
        var userType := OptionalGet(obj, "User_Type");
        Returns(
          && TypeOf(guid) == "string"
          && TypeOf(OptionalGet(obj, "User_Active")) == "boolean"
          && TypeOf(OptionalGet(obj, "User_Name")) == "string"
          && (userType == Str("free") || userType == Str("pro") || userType == Str("business") || userType == Str("enterprise")))
  }

  /** Strings, numbers, booleans, `undefined` and arrays are rejected without a throw. */
  lemma NonObjectsRejected(obj: Value)
    requires !obj.Obj? && !obj.Null?
    ensures IsUserDto(obj) == Returns(false)
  {
  }

  /** Only the four inspected fields matter: any other property can be added or changed. */
  lemma OnlyFourFieldsInspected(a: Props, b: Props)
    requires Lookup(a, "User_guid") == Lookup(b, "User_guid")
    requires Lookup(a, "User_Active") == Lookup(b, "User_Active")
    requires Lookup(a, "User_Name") == Lookup(b, "User_Name")
    requires Lookup(a, "User_Type") == Lookup(b, "User_Type")
    ensures IsUserDto(Obj(a)) == IsUserDto(Obj(b))
  {
  }

  /** `User_Type` is compared exactly: `"Pro"` is not a user type. */
  lemma UserTypeCaseSensitive(guid: string, active: bool, name: string)
    ensures IsUserDto(Obj(User(guid, active, name, "pro"))) == Returns(true)
    ensures IsUserDto(Obj(User(guid, active, name, "Pro"))) == Returns(false)
  {
    UserFields(guid, active, name, "pro");
    UserFields(guid, active, name, "Pro");
    assert "pro" in UserTypes && "Pro" !in UserTypes;
  }

  /** A record with exactly the four fields, in declaration order. */
  function User(guid: string, active: bool, name: string, userType: string): Props
  {
    [("User_guid", Str(guid)), ("User_Active", Bool(active)), ("User_Name", Str(name)), ("User_Type", Str(userType))]
  }

  lemma UserFields(guid: string, active: bool, name: string, userType: string)
    ensures Lookup(User(guid, active, name, userType), "User_guid") == Str(guid)
    ensures Lookup(User(guid, active, name, userType), "User_Active") == Bool(active)
    ensures Lookup(User(guid, active, name, userType), "User_Name") == Str(name)
    ensures Lookup(User(guid, active, name, userType), "User_Type") == Str(userType)
  {
    var p := User(guid, active, name, userType);
    assert "User_guid"[5] == 'g' && "User_Active"[5] == 'A' && "User_Name"[5] == 'N' && "User_Type"[5] == 'T';
    assert p[1..][1..] == p[2..] && p[2..][1..] == p[3..];
    assert Lookup(p, "User_Active") == Lookup(p[1..], "User_Active");
    assert Lookup(p, "User_Name") == Lookup(p[1..], "User_Name") == Lookup(p[2..], "User_Name");
    assert Lookup(p, "User_Type") == Lookup(p[1..], "User_Type") == Lookup(p[2..], "User_Type") == Lookup(p[3..], "User_Type");
  }
}
