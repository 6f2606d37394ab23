/** The page header: the highlighted navigation tab, the user's name and the role badge. */
module AppHeader {
  import opened Wrappers
  import opened Strings
  import opened Schema
  import PassportCard

  /** `/` is the dashboard, any path beginning with `/passports` the list, exactly `/import` the importer. */
  function ActiveTab(location: string): (tab: string)
    ensures location == "/" ==> tab == "dashboard"
    ensures location != "/" && StartsWith(location, "/passports") ==> tab == "passports"
    ensures location == "/import" ==> tab == "imports"
    ensures location != "/" && !StartsWith(location, "/passports") && location != "/import" ==> tab == ""
  {
    if location == "/" then "dashboard"
    else if StartsWith(location, "/passports") then "passports"
    else if location == "/import" then "imports"
    else ""
  }

  datatype NavItem = NavItem(path: string, text: string, id: string)

  const NavItems: seq<NavItem> := [
    NavItem("/", "Dashboard", "dashboard"),
    NavItem("/passports", "Material Passports", "passports"),
    NavItem("/import", "Data Import", "imports")
  ]

  /** Clicking a tab goes to its path, which highlights that tab and no other. */
  lemma NavigationHighlightsItself(i: nat, j: nat)
    requires i < |NavItems| && j < |NavItems|
    ensures ActiveTab(NavItems[i].path) == NavItems[j].id <==> i == j
  {
  }

  /** A page under an import path is not the importer: no tab is highlighted. */
  lemma ImportSubpathHighlightsNothing(rest: string)
    requires rest != ""
    ensures ActiveTab("/import" + rest) == ""
  {
    var p := "/import" + rest;
    assert p[1] == 'i';
    assert !StartsWith(p, "/passports");
  }

  /** The edit page of any passport keeps the list tab highlighted. */
  lemma EditPageHighlightsPassports(id: nat)
    ensures ActiveTab(PassportCard.EditPath(id)) == "passports"
  {
    var path := PassportCard.EditPath(id);
    assert path[..10] == "/passports";
  }

  function Truthy(s: Option<string>): bool {
    s.Some? && s.value != ""
  }

  /** The trimmed "first last" when there is a first name, else the e-mail, else "User". */
  function DisplayName(u: Option<User>): (name: string)
    ensures u.Some? && Truthy(u.value.firstName) ==>
              name == Trim(u.value.firstName.value + " " + (if Truthy(u.value.lastName) then u.value.lastName.value else ""))
    ensures !(u.Some? && Truthy(u.value.firstName)) && u.Some? && Truthy(u.value.email) ==> name == u.value.email.value
    ensures !(u.Some? && Truthy(u.value.firstName)) && !(u.Some? && Truthy(u.value.email)) ==> name == "User"
  {
    if u.Some? && Truthy(u.value.firstName) then
      Trim(u.value.firstName.value + " " + (if Truthy(u.value.lastName) then u.value.lastName.value else ""))
    else if u.Some? && Truthy(u.value.email) then u.value.email.value
    else "User"
  }

  /** First and last name, neither with blanks at its outer end, are shown as "first last". */
  lemma DisplayNameJoinsNames(u: User, f: string, l: string)
    requires u.firstName == Some(f) && u.lastName == Some(l)
    requires f != "" && l != "" && !IsSpace(f[0]) && !IsSpace(l[|l| - 1])
    ensures DisplayName(Some(u)) == f + " " + l
  {
    var s := f + " " + l;
    assert s[0] == f[0] && s[|s| - 1] == l[|l| - 1];
    TrimKeepsUnblankedEnds(s);
  }

  /** Without a last name, the first name alone is shown, with no trailing blank. */
  lemma {:induction false} DisplayNameWithoutLastName(u: User, f: string)
    requires u.firstName == Some(f) && !Truthy(u.lastName)
    requires f != "" && !IsSpace(f[0]) && !IsSpace(f[|f| - 1])
    ensures DisplayName(Some(u)) == f
  {
    var s := f + " ";
    var r := Trim(s);
    var i, j :| 0 <= i <= j <= |s| && r == s[i..j]
                && (forall k | 0 <= k < i :: IsSpace(s[k])) && (forall k | j <= k < |s| :: IsSpace(s[k]));
    assert s[0] == f[0] && s[|f| - 1] == f[|f| - 1] && s[|f|] == ' ';
    assert f + " " + "" == s;
    assert i == 0;
    assert j > 0 ==> r[|r| - 1] == s[j - 1];
    assert j == |f|;
    assert s[..|f|] == f;
  }

  /** A first name of one blank is truthy yet shows an empty name, hiding the e-mail. */
  lemma BlankFirstNameShowsNothing(u: User)
    requires u.firstName == Some(" ") && !Truthy(u.lastName)
    ensures DisplayName(Some(u)) == ""
  {
    var s := " " + " ";
    var r := Trim(s);
    var i, j :| 0 <= i <= j <= |s| && r == s[i..j];
    assert forall k | 0 <= k < |s| :: IsSpace(s[k]);
  }

  /** The shown name is empty only for a user whose first name is all blanks. */
  lemma {:induction false} EmptyNameMeansBlankFirstName(u: Option<User>)
    requires DisplayName(u) == ""
    ensures u.Some? && Truthy(u.value.firstName)
    ensures forall k | 0 <= k < |u.value.firstName.value| :: IsSpace(u.value.firstName.value[k])
  {
    var f := u.value.firstName.value;
    var s := f + " " + (if Truthy(u.value.lastName) then u.value.lastName.value else "");
    var i, j :| 0 <= i <= j <= |s| && "" == s[i..j]
                && (forall k | 0 <= k < i :: IsSpace(s[k])) && (forall k | j <= k < |s| :: IsSpace(s[k]));
    forall k | 0 <= k < |f| ensures IsSpace(f[k]) {
      assert s[k] == f[k];
    }
  }

  /** `user?.role || 'viewer'`: a missing user or an empty role reads as viewer. */
  function RoleBadge(u: Option<User>): (text: string)
    ensures text != ""
    ensures u.Some? && u.value.role != "" ==> text == u.value.role
    ensures u.None? || u.value.role == "" ==> text == ViewerRole
  {
    if u.Some? && u.value.role != "" then u.value.role else ViewerRole
  }

  datatype BadgeVariant = DefaultVariant | SecondaryVariant | OutlineVariant

  function RoleVariant(u: Option<User>): (v: BadgeVariant)
    ensures v == DefaultVariant <==> u.Some? && u.value.role == AuthorRole
    ensures v == SecondaryVariant <==> u.Some? && u.value.role == MemberRole
  {
    if u.Some? && u.value.role == AuthorRole then DefaultVariant
    else if u.Some? && u.value.role == MemberRole then SecondaryVariant
    else OutlineVariant
  }

  /** The badge is outlined exactly when it does not name the author or member role. */
  lemma OutlineMeansNeitherRole(u: Option<User>)
    ensures RoleVariant(u) == OutlineVariant <==> RoleBadge(u) != AuthorRole && RoleBadge(u) != MemberRole
  {
  }
}
