/** The sidebar (client/src/components/Sidebar.jsx): the initials shown in the
    avatar, the icon chosen for each navigation item, the role name looked up
    from the static role table, and the fallbacks of the profile block. */
module Sidebar {
  import opened Strings
  import opened Js
  import Signup
  import AuthRoutes

  const NoNameInitials: string := "User"
  const FallbackName: string := "Grace Mark"
  const FallbackEmail: string := "guest@dashboard.com"
  const UndefinedRole: string := "Role Undefined"

  /** `USER_ROLES`: an object, so its keys are the strings "1" to "6". */
  const UserRoles: map<string, string> := map[
    "1" := "System Administrator",
    "2" := "Purchasing Agent",
    "3" := "Sales Manager",
    "4" := "Warehouse Clerk",
    "5" := "Executive / Analyst",
    "6" := "Data Entry Clerk"]

  // ---------------------------------------------------------------- initials

  /** `parts.map(n => n[0]).join('')`. */
  function FirstLetters(parts: seq<string>): (r: string)
    requires forall k :: 0 <= k < |parts| ==> parts[k] != ""
    ensures |r| == |parts|
    ensures forall k :: 0 <= k < |parts| ==> r[k] == parts[k][0]
  {
    if |parts| == 0 then "" else [parts[0][0]] + FirstLetters(parts[1..])
  }

  /** The words of a name: `fullName.split(' ').filter(n => n)`. */
  function Words(fullName: string): (w: seq<string>)
    ensures forall k :: 0 <= k < |w| ==> w[k] != "" && ' ' !in w[k]
  {
    var w := NonEmpty(Split(fullName, ' '));
    assert forall k :: 0 <= k < |w| ==> w[k] in Split(fullName, ' ');
    w
  }

  /** getInitials: "User" for an empty name; the first letters of the first two
      words when there are several words; otherwise the first two characters;
      always upper-cased. */
  function Initials(fullName: string): (r: string)
    ensures fullName == "" ==> r == NoNameInitials
    ensures fullName != "" && |Words(fullName)| > 1 ==>
      r == [UpperChar(Words(fullName)[0][0]), UpperChar(Words(fullName)[1][0])]
    ensures fullName != "" && |Words(fullName)| <= 1 ==>
      |r| == (if |fullName| < 2 then |fullName| else 2) && forall i :: 0 <= i < |r| ==> r[i] == UpperChar(fullName[i])
    ensures fullName != "" ==> 1 <= |r| <= 2
  {
    if fullName == "" then NoNameInitials
    else
      var parts := Words(fullName);
      if |parts| > 1 then Take(ToUpper(FirstLetters(parts)), 2)
      else ToUpper(Take(fullName, 2))
  }

  /** A name without spaces is split into itself. */
  lemma SingleWord(s: string)
    requires s != "" && ' ' !in s
    ensures Words(s) == [s]
  {
    assert Split(s, ' ') == [s];
    assert NonEmpty([s]) == [s] + NonEmpty([]);
  }

  /** "First Last" gives the upper-cased first letters of both names. */
  lemma TwoWordInitials(first: string, last: string)
    requires first != "" && last != "" && ' ' !in first && ' ' !in last
    ensures Initials(first + " " + last) == [UpperChar(first[0]), UpperChar(last[0])]
  {
    var s := first + " " + last;
    assert s[|first|] == ' ';
    assert s[..|first|] == first;
    IndexOfIsFirst(s, ' ', |first|);
    assert s[|first| + 1..] == last;
    SplitStep(s, ' ');
    assert Split(last, ' ') == [last];
    assert Split(s, ' ') == [first, last];
    assert NonEmpty([first, last]) == [first] + NonEmpty([last]);
    assert NonEmpty([last]) == [last] + NonEmpty([]);
  }

  /** A single word gives its first two characters upper-cased. */
  lemma OneWordInitials(word: string)
    requires |word| >= 2 && ' ' !in word
    ensures Initials(word) == [UpperChar(word[0]), UpperChar(word[1])]
  {
    SingleWord(word);
  }

  // ---------------------------------------------------------------- icons

  datatype Icon = HomeIcon | LineChartIcon | BoxesIcon | UserIcon | TagsIcon | TruckIcon | FolderIcon

  /** The stock pages: 'inventory', 'purchasing' or 'sales' in the id. */
  predicate StockPage(id: string) {
    Contains(id, "inventory") || Contains(id, "purchasing") || Contains(id, "sales")
  }

  /** The user pages: 'users' or 'create' in the id. */
  predicate UserPage(id: string) {
    Contains(id, "users") || Contains(id, "create")
  }

  /** getItemIcon: the first matching substring test wins, so each icon is chosen
      exactly when its test matches and every earlier one fails. */
  function ItemIcon(id: string): (icon: Icon)
    ensures icon == HomeIcon <==> Contains(id, "dashboard")
    ensures icon == LineChartIcon <==> !Contains(id, "dashboard") && Contains(id, "forecasting")
    ensures icon == BoxesIcon <==> !Contains(id, "dashboard") && !Contains(id, "forecasting") && StockPage(id)
    ensures icon == UserIcon <==>
      !Contains(id, "dashboard") && !Contains(id, "forecasting") && !StockPage(id) && UserPage(id)
    ensures icon == TagsIcon <==>
      !Contains(id, "dashboard") && !Contains(id, "forecasting") && !StockPage(id) && !UserPage(id)
      && Contains(id, "pricing")
    ensures icon == TruckIcon <==>
      !Contains(id, "dashboard") && !Contains(id, "forecasting") && !StockPage(id) && !UserPage(id)
      && !Contains(id, "pricing") && Contains(id, "delivery")
    ensures icon == FolderIcon <==>
      !Contains(id, "dashboard") && !Contains(id, "forecasting") && !StockPage(id) && !UserPage(id)
      && !Contains(id, "pricing") && !Contains(id, "delivery")
  {
    if Contains(id, "dashboard") then HomeIcon
    else if Contains(id, "forecasting") then LineChartIcon
    else if StockPage(id) then BoxesIcon
    else if UserPage(id) then UserIcon
    else if Contains(id, "pricing") then TagsIcon
    else if Contains(id, "delivery") then TruckIcon
    else FolderIcon
  }

  /** "create-users" holds both 'create' and 'users'; either way it gets the user icon. */
  lemma CreateUsersIcon()
    ensures ItemIcon("create-users") == UserIcon
  {
    assert OccursAt("create-users", "users", 7);
    NotContains("create-users", "dashboard", 0);
    NotContains("create-users", "forecasting", 0);
    NotContains("create-users", "inventory", 0);
    NotContains("create-users", "purchasing", 0);
    NotContains("create-users", "sales", 2);
  }

  /** An id holding both 'create' and 'pricing' gets the user icon: the user test comes first. */
  lemma CreatePricingIcon()
    ensures ItemIcon("create-pricing") == UserIcon
  {
    assert OccursAt("create-pricing", "create", 0);
    NotContains("create-pricing", "dashboard", 0);
    NotContains("create-pricing", "forecasting", 0);
    NotContains("create-pricing", "inventory", 2);
    NotContains("create-pricing", "purchasing", 1);
    NotContains("create-pricing", "sales", 0);
  }

  /** The pricing pages get the tag icon: no earlier test matches them. */
  lemma PricingIcon()
    ensures ItemIcon("inbound-pricing") == TagsIcon
  {
    var id := "inbound-pricing";
    assert OccursAt(id, "pricing", 8);
    NotContains(id, "dashboard", 1);
    NotContains(id, "forecasting", 0);
    NotContains(id, "inventory", 2);
    NotContains(id, "purchasing", 4);
    NotContains(id, "sales", 0);
    NotContains(id, "users", 1);
    NotContains(id, "create", 2);
  }

  /** `s` does not contain `sub` when one of the characters of `sub` never occurs in `s`. */
  lemma NotContains(s: string, sub: string, k: nat)
    requires k < |sub| && sub[k] !in s
    ensures !Contains(s, sub)
  {
    forall i | 0 <= i <= |s| - |sub|
      ensures !OccursAt(s, sub, i)
    {
      assert s[i..i + |sub|][k] == s[i + k] && s[i + k] in s;
    }
  }

  // ---------------------------------------------------------------- profile

  /** `USER_ROLES[roleId] || 'Role Undefined'`: the property key is `String(roleId)`. */
  function RoleName(roleId: Option<Json>): (r: string)
    ensures Template(roleId) in UserRoles ==> r == UserRoles[Template(roleId)]
    ensures Template(roleId) !in UserRoles ==> r == UndefinedRole
  {
    var key := Template(roleId);
    if key in UserRoles then UserRoles[key] else UndefinedRole
  }

  /** A numeric role id names a role exactly when it is 1 to 6. */
  lemma {:induction false} NumericRoleName(n: int)
    ensures 1 <= n <= 6 ==> RoleName(Some(JNum(n))) == UserRoles[[('0' as int + n) as char]]
    ensures !(1 <= n <= 6) ==> RoleName(Some(JNum(n))) == UndefinedRole
  {
    var key := NumberToString(n);
    if n < 0 {
      assert key[0] == '-';
    } else {
      DigitsValueOfNatToString(n);
      if key in UserRoles {
        assert |key| == 1 && DigitsValue(key) == DigitValue(key[0]);
      }
    }
  }

  /** The sidebar and the signup form agree on the name of every built-in role. */
  lemma RoleNamesAgreeWithSignup()
    ensures forall i :: 0 <= i < |Signup.BuiltInRoles| ==>
      RoleName(Some(JNum(Signup.BuiltInRoles[i].id))) == Signup.BuiltInRoles[i].name
    ensures RoleName(Some(JNum(1))) == AuthRoutes.AdminRoleName
  {
    forall i | 0 <= i < |Signup.BuiltInRoles|
      ensures RoleName(Some(JNum(Signup.BuiltInRoles[i].id))) == Signup.BuiltInRoles[i].name
    {
      NumericRoleName(Signup.BuiltInRoles[i].id);
    }
    NumericRoleName(1);
  }

  /** What the profile block shows. */
  datatype Profile = Profile(fullName: string, email: string, roleName: string, initials: string)

  /** The profile of a user object: missing or empty names and emails fall back. */
  function ProfileOf(user: Json): (p: Profile)
    ensures !FieldTruthy(user, "full_name") ==> p.fullName == FallbackName && p.initials == "GM"
    ensures FieldTruthy(user, "full_name") ==> p.fullName == ToJsString(Get(user, "full_name").value)
    ensures !FieldTruthy(user, "email") ==> p.email == FallbackEmail
    ensures FieldTruthy(user, "email") ==> p.email == ToJsString(Get(user, "email").value)
    ensures p.roleName == RoleName(Get(user, "role_id"))
    ensures p.initials == Initials(p.fullName) && p.initials != NoNameInitials
  {
    var fullName := if FieldTruthy(user, "full_name") then ToJsString(Get(user, "full_name").value) else FallbackName;
    var email := if FieldTruthy(user, "email") then ToJsString(Get(user, "email").value) else FallbackEmail;
    FallbackInitials();
    TruthyTextNotEmpty(user, "full_name");
    Profile(fullName, email, RoleName(Get(user, "role_id")), Initials(fullName))
  }

  /** The fallback name shows "GM". */
  lemma FallbackInitials()
    ensures Initials(FallbackName) == "GM"
  {
    assert FallbackName == "Grace" + " " + "Mark";
    TwoWordInitials("Grace", "Mark");
  }

  /** A truthy field's string form is never empty. */
  lemma TruthyTextNotEmpty(v: Json, key: string)
    ensures FieldTruthy(v, key) ==> ToJsString(Get(v, key).value) != ""
  {
  }
}
